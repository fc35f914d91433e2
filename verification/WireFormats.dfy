/** The canonical history and its Anthropic and Gemini forms
    (src/lingtai/llm/interface_converters.py, with the add methods of
    src/lingtai_kernel/llm/interface.py that parsing uses). */
module WireFormats {
  import opened Wrappers

  // ----- the canonical history -----

  // A result's content is a string, or an object that is dumped to one.
  datatype Content = Plain(text: string) | Object(dumped: string)

  datatype Block =
    | Text(text: string)
    | Thinking(text: string, signature: string, raw: Option<string>)
    | Call(id: string, name: string, args: string)
    | Result(id: string, name: string, content: Content, synthesized: bool)

  datatype Role = System | User | Assistant

  datatype Entry = Entry(role: Role, content: seq<Block>)

  datatype Error = PendingToolCalls

  function Dump(content: Content): string {
    match content
    case Plain(text) => text
    case Object(dumped) => dumped
  }

  predicate HasCall(content: seq<Block>) {
    exists b <- content :: b.Call?
  }

  predicate AllResults(content: seq<Block>) {
    forall b <- content :: b.Result?
  }

  predicate HasPending(entries: seq<Entry>) {
    entries != [] && entries[|entries| - 1].role == Assistant && HasCall(entries[|entries| - 1].content)
  }

  // The history without its system entries.
  function Turns(entries: seq<Entry>): seq<Entry> {
    if entries == [] then []
    else
      var last := entries[|entries| - 1];
      Turns(entries[..|entries| - 1]) + (if last.role == System then [] else [last])
  }

  function AddUserMessage(entries: seq<Entry>, text: string): Result<seq<Entry>, Error> {
    if HasPending(entries) then Err(PendingToolCalls) else Ok(entries + [Entry(User, [Text(text)])])
  }

  function AddUserBlocks(entries: seq<Entry>, blocks: seq<Block>): Result<seq<Entry>, Error> {
    if HasPending(entries) && !(blocks != [] && AllResults(blocks)) then Err(PendingToolCalls)
    else Ok(entries + [Entry(User, blocks)])
  }

  predicate Placeholder(b: Block, id: string) {
    b.Result? && b.id == id && b.synthesized
  }

  function ReplaceIn(content: seq<Block>, r: Block): Option<seq<Block>>
    requires r.Result?
  {
    if content == [] then None
    else if Placeholder(content[0], r.id) then Some([r] + content[1..])
    else match ReplaceIn(content[1..], r)
      case None => None
      case Some(rest) => Some([content[0]] + rest)
  }

  // A result takes the place of the first placeholder with its id, if there is one.
  function Replace(entries: seq<Entry>, r: Block): Option<seq<Entry>>
    requires r.Result?
  {
    if entries == [] then None
    else
      var here := if entries[0].role == User then ReplaceIn(entries[0].content, r) else None;
      if here.Some? then Some([Entry(User, here.value)] + entries[1..])
      else match Replace(entries[1..], r)
        case None => None
        case Some(rest) => Some([entries[0]] + rest)
  }

  function AddToolResults(entries: seq<Entry>, results: seq<Block>, leftover: seq<Block>): seq<Entry>
    requires AllResults(results)
    decreases |results|
  {
    if results == [] then (if leftover == [] then entries else entries + [Entry(User, leftover)])
    else match Replace(entries, results[0])
      case Some(replaced) => AddToolResults(replaced, results[1..], leftover)
      case None => AddToolResults(entries, results[1..], leftover + [results[0]])
  }

  predicate NoneSynthesized(entries: seq<Entry>) {
    forall e <- entries :: forall b <- e.content :: b.Result? ==> !b.synthesized
  }

  lemma {:induction false} NothingToReplaceIn(content: seq<Block>, r: Block)
    requires r.Result? && forall b <- content :: b.Result? ==> !b.synthesized
    ensures ReplaceIn(content, r) == None
  {
    if content != [] {
      NothingToReplaceIn(content[1..], r);
    }
  }

  lemma {:induction false} NothingToReplace(entries: seq<Entry>, r: Block)
    requires r.Result? && NoneSynthesized(entries)
    ensures Replace(entries, r) == None
  {
    if entries != [] {
      NothingToReplaceIn(entries[0].content, r);
      NothingToReplace(entries[1..], r);
    }
  }

  // Without placeholders the results are simply appended; no results, no entry.
  lemma {:induction false} ResultsAppend(entries: seq<Entry>, results: seq<Block>, leftover: seq<Block>)
    requires AllResults(results) && NoneSynthesized(entries)
    ensures AddToolResults(entries, results, leftover) ==
            if leftover + results == [] then entries else entries + [Entry(User, leftover + results)]
    decreases |results|
  {
    if results == [] {
      assert leftover + results == leftover;
    } else {
      NothingToReplace(entries, results[0]);
      ResultsAppend(entries, results[1..], leftover + [results[0]]);
      assert leftover + [results[0]] + results[1..] == leftover + results;
    }
  }

  // ----- Anthropic -----

  datatype ABlock =
    | AText(text: string)
    | AToolUse(id: string, name: string, input: string)
    | AToolResult(toolUseId: string, content: string)
    | AThinking(thinking: string, signature: string)      // "" when there is none

  datatype ABody = AString(text: string) | AList(blocks: seq<ABlock>)

  datatype AMessage = AMessage(assistant: bool, body: ABody)

  function ToABlock(b: Block): ABlock {
    match b
    case Text(text) => AText(text)
    case Thinking(text, signature, _) => AThinking(text, signature)
    case Call(id, name, args) => AToolUse(id, name, args)
    case Result(id, _, content, _) => AToolResult(id, Dump(content))
  }

  function FromABlock(b: ABlock): Block {
    match b
    case AText(text) => Text(text)
    case AToolUse(id, name, input) => Call(id, name, input)
    case AToolResult(id, content) => Result(id, "", Plain(content), false)
    case AThinking(thinking, signature) => Thinking(thinking, signature, None)
  }

  function ToABlocks(blocks: seq<Block>): (r: seq<ABlock>)
    ensures |r| == |blocks| && forall i :: 0 <= i < |blocks| ==> r[i] == ToABlock(blocks[i])
  {
    seq(|blocks|, i requires 0 <= i < |blocks| => ToABlock(blocks[i]))
  }

  function FromABlocks(blocks: seq<ABlock>): (r: seq<Block>)
    ensures |r| == |blocks| && forall i :: 0 <= i < |blocks| ==> r[i] == FromABlock(blocks[i])
  {
    seq(|blocks|, i requires 0 <= i < |blocks| => FromABlock(blocks[i]))
  }

  // One user or assistant entry: a lone text goes as a string.
  function ToAMessage(e: Entry): AMessage {
    if e.role == Assistant then AMessage(true, AList(ToABlocks(e.content)))
    else if e.content != [] && e.content[0].Result? then AMessage(false, AList(ToABlocks(e.content)))
    else if |e.content| == 1 && e.content[0].Text? then AMessage(false, AString(e.content[0].text))
    else AMessage(false, AList(ToABlocks(e.content)))
  }

  function ToAnthropic(entries: seq<Entry>): (r: seq<AMessage>)
    ensures |r| == |Turns(entries)| && forall i :: 0 <= i < |r| ==> r[i] == ToAMessage(Turns(entries)[i])
  {
    if entries == [] then []
    else
      var last := entries[|entries| - 1];
      ToAnthropic(entries[..|entries| - 1]) + (if last.role == System then [] else [ToAMessage(last)])
  }

  method SerializeAnthropic(entries: seq<Entry>) returns (messages: seq<AMessage>)
    ensures messages == ToAnthropic(entries)
  {
    messages := [];
    for i := 0 to |entries|
      invariant messages == ToAnthropic(entries[..i])
    {
      var entry := entries[i];
      assert entries[..i + 1][..i] == entries[..i];
      if entry.role != System {
        messages := messages + [ToAMessage(entry)];
      }
    }
    assert entries[..|entries|] == entries;
  }

  predicate ToolResultsOnly(blocks: seq<ABlock>) {
    forall b <- blocks :: b.AToolResult?
  }

  lemma {:induction false} ResultsParsed(blocks: seq<ABlock>)
    requires ToolResultsOnly(blocks)
    ensures AllResults(FromABlocks(blocks))
  {
    forall i | 0 <= i < |blocks|
      ensures FromABlocks(blocks)[i].Result?
    {
      assert blocks[i] in blocks;
    }
  }

  // What one message adds to the history.
  function AddAMessage(entries: seq<Entry>, m: AMessage): Result<seq<Entry>, Error> {
    match m.body
    case AString(text) =>
      if m.assistant then Ok(entries + [Entry(Assistant, [Text(text)])]) else AddUserMessage(entries, text)
    case AList(blocks) =>
      if m.assistant then Ok(entries + [Entry(Assistant, FromABlocks(blocks))])
      else if ToolResultsOnly(blocks) then
        assert AllResults(FromABlocks(blocks)) by { ResultsParsed(blocks); }
        Ok(AddToolResults(entries, FromABlocks(blocks), []))
      else AddUserBlocks(entries, FromABlocks(blocks))
  }

  // `prompt` is the system prompt, or empty.
  function Opening(prompt: string): seq<Entry> {
    if prompt == "" then [] else [Entry(System, [Text(prompt)])]
  }

  function FromAnthropic(messages: seq<AMessage>, prompt: string): Result<seq<Entry>, Error> {
    if messages == [] then Ok(Opening(prompt))
    else match FromAnthropic(messages[..|messages| - 1], prompt)
      case Err(e) => Err(e)
      case Ok(entries) => AddAMessage(entries, messages[|messages| - 1])
  }

  method ParseAnthropic(messages: seq<AMessage>, prompt: string) returns (r: Result<seq<Entry>, Error>)
    ensures r == FromAnthropic(messages, prompt)
  {
    r := Ok(Opening(prompt));
    for i := 0 to |messages|
      invariant r.Ok? && r == FromAnthropic(messages[..i], prompt)
    {
      assert messages[..i + 1][..i] == messages[..i];
      r := AddAMessage(r.value, messages[i]);
      if r.Err? {
        FailureStays(messages, prompt, i + 1);
        return;
      }
    }
    assert messages[..|messages|] == messages;
  }

  lemma {:induction false} FailureStays(messages: seq<AMessage>, prompt: string, i: nat)
    requires i <= |messages| && FromAnthropic(messages[..i], prompt).Err?
    ensures FromAnthropic(messages, prompt) == FromAnthropic(messages[..i], prompt)
    decreases |messages|
  {
    if i < |messages| {
      var init := messages[..|messages| - 1];
      assert init[..i] == messages[..i];
      FailureStays(init, prompt, i);
    } else {
      assert messages[..i] == messages;
    }
  }

  // What parsing gives back for one entry.
  function Canon(e: Entry): Entry {
    Entry(e.role, CanonBlocks(e.content))
  }

  function CanonBlock(b: Block): Block {
    FromABlock(ToABlock(b))
  }

  function CanonBlocks(content: seq<Block>): (r: seq<Block>)
    ensures |r| == |content| && forall i :: 0 <= i < |content| ==> r[i] == CanonBlock(content[i])
  {
    seq(|content|, i requires 0 <= i < |content| => CanonBlock(content[i]))
  }

  // The turn before is an assistant turn that makes a call.
  predicate OpenBefore(turns: seq<Entry>, k: nat)
    requires k <= |turns|
  {
    k > 0 && turns[k - 1].role == Assistant && exists b <- turns[k - 1].content :: b.Call?
  }

  // Calls right before it are answered by nothing but results, and it is not empty.
  predicate AnthropicSafe(turns: seq<Entry>, k: nat)
    requires k < |turns|
  {
    turns[k].role == User ==>
      turns[k].content != [] && (OpenBefore(turns, k) ==> forall b <- turns[k].content :: b.Result?)
  }

  predicate AnthropicSafeAll(turns: seq<Entry>) {
    forall k :: 0 <= k < |turns| ==> AnthropicSafe(turns, k)
  }

  lemma {:induction false} CanonSerializes(e: Entry)
    requires e.role != System
    ensures ToAMessage(Canon(e)) == ToAMessage(e)
  {
    assert ToABlocks(CanonBlocks(e.content)) == ToABlocks(e.content);
  }

  lemma {:induction false} KindKept(content: seq<Block>)
    ensures FromABlocks(ToABlocks(content)) == CanonBlocks(content)
    ensures AllResults(CanonBlocks(content)) <==> AllResults(content)
    ensures ToolResultsOnly(ToABlocks(content)) <==> AllResults(content)
    ensures HasCall(CanonBlocks(content)) <==> HasCall(content)
  {
    var c, w := CanonBlocks(content), ToABlocks(content);
    forall i | 0 <= i < |content|
      ensures c[i].Result? <==> content[i].Result?
      ensures c[i].Call? <==> content[i].Call?
      ensures w[i].AToolResult? <==> content[i].Result?
      ensures content[i] in content && c[i] in c && w[i] in w
    {
    }
  }

  // What parsing makes of one serialized entry.
  lemma {:induction false} ParseOne(entries: seq<Entry>, e: Entry)
    requires e.role != System && NoneSynthesized(entries)
    ensures AddAMessage(entries, ToAMessage(e)) ==
            if e.role == User && e.content == [] then Ok(entries)
            else if e.role == User && HasPending(entries) && !AllResults(e.content) then Err(PendingToolCalls)
            else Ok(entries + [Canon(e)])
  {
    KindKept(e.content);
    if e.role == User {
      if AllResults(e.content) {
        ParseResults(entries, e);
      } else {
        ParseOther(entries, e);
      }
    }
  }

  lemma {:induction false} ParseResults(entries: seq<Entry>, e: Entry)
    requires e.role == User && NoneSynthesized(entries) && AllResults(e.content)
    ensures AddAMessage(entries, ToAMessage(e)) == Ok(if e.content == [] then entries else entries + [Canon(e)])
  {
    KindKept(e.content);
    var blocks := CanonBlocks(e.content);
    ResultsAppend(entries, blocks, []);
    assert [] + blocks == blocks;
    assert e.content != [] ==> e.content[0] in e.content;
  }

  lemma {:induction false} ParseOther(entries: seq<Entry>, e: Entry)
    requires e.role == User && !AllResults(e.content)
    ensures AddAMessage(entries, ToAMessage(e)) ==
            if HasPending(entries) then Err(PendingToolCalls) else Ok(entries + [Canon(e)])
  {
    KindKept(e.content);
    if |e.content| == 1 && e.content[0].Text? {
      assert CanonBlocks(e.content) == [Text(e.content[0].text)];
    }
  }

  // What parsing gives for safe turns, one after the other.
  function Parsed(turns: seq<Entry>, prompt: string): seq<Entry> {
    if turns == [] then Opening(prompt)
    else Parsed(turns[..|turns| - 1], prompt) + [Canon(turns[|turns| - 1])]
  }

  predicate NoSystem(turns: seq<Entry>) {
    forall i :: 0 <= i < |turns| ==> turns[i].role != System
  }

  predicate Serialized(turns: seq<Entry>, messages: seq<AMessage>) {
    |messages| == |turns| && forall i :: 0 <= i < |turns| ==> messages[i] == ToAMessage(turns[i])
  }

  lemma {:induction false} ParsedPending(turns: seq<Entry>, prompt: string)
    ensures HasPending(Parsed(turns, prompt)) <==> HasPending(turns)
  {
    if turns != [] {
      KindKept(turns[|turns| - 1].content);
    }
  }

  lemma {:induction false} StillReal(entries: seq<Entry>, e: Entry)
    requires NoneSynthesized(entries)
    ensures NoneSynthesized(entries + [Canon(e)])
  {
    forall b | b in Canon(e).content && b.Result?
      ensures !b.synthesized
    {
      var j :| 0 <= j < |e.content| && Canon(e).content[j] == b;
      assert b == CanonBlock(e.content[j]);
    }
  }

  lemma {:induction false} ParsedReal(turns: seq<Entry>, prompt: string)
    ensures NoneSynthesized(Parsed(turns, prompt))
  {
    if turns != [] {
      ParsedReal(turns[..|turns| - 1], prompt);
      StillReal(Parsed(turns[..|turns| - 1], prompt), turns[|turns| - 1]);
    }
  }

  lemma {:induction false} SerializeOneMore(entries: seq<Entry>, e: Entry)
    ensures ToAnthropic(entries + [e]) == ToAnthropic(entries) + if e.role == System then [] else [ToAMessage(e)]
  {
    assert (entries + [e])[..|entries|] == entries;
  }

  lemma {:induction false} OpeningIsSilent(prompt: string)
    ensures ToAnthropic(Opening(prompt)) == []
  {
    if prompt != "" {
      SerializeOneMore([], Entry(System, [Text(prompt)]));
      assert [] + [Entry(System, [Text(prompt)])] == Opening(prompt);
    }
  }

  // The parsed history serializes to the same messages.
  lemma {:induction false} ParsedSerializes(turns: seq<Entry>, messages: seq<AMessage>, prompt: string)
    requires NoSystem(turns) && Serialized(turns, messages)
    ensures ToAnthropic(Parsed(turns, prompt)) == messages
  {
    if turns == [] {
      OpeningIsSilent(prompt);
    } else {
      var n := |turns| - 1;
      ParsedSerializes(turns[..n], messages[..n], prompt);
      SerializeOneMore(Parsed(turns[..n], prompt), Canon(turns[n]));
      CanonSerializes(turns[n]);
      assert messages == messages[..n] + [messages[n]];
    }
  }

  lemma {:induction false} SafePrefix(turns: seq<Entry>, n: nat)
    requires n < |turns|
    ensures AnthropicSafeAll(turns[..n + 1]) <==> AnthropicSafeAll(turns[..n]) && AnthropicSafe(turns, n)
  {
    var longer, shorter := turns[..n + 1], turns[..n];
    forall k | 0 <= k <= n
      ensures AnthropicSafe(longer, k) <==> AnthropicSafe(turns, k)
      ensures k < n ==> (AnthropicSafe(shorter, k) <==> AnthropicSafe(turns, k))
    {
      assert longer[..k] == turns[..k];
      assert k < n ==> shorter[..k] == turns[..k];
    }
  }

  // Safe histories parse to the same turns in canonical form.
  lemma {:induction false} SafeParses(turns: seq<Entry>, messages: seq<AMessage>, prompt: string)
    requires NoSystem(turns) && Serialized(turns, messages) && AnthropicSafeAll(turns)
    ensures FromAnthropic(messages, prompt) == Ok(Parsed(turns, prompt))
  {
    if turns != [] {
      var n := |turns| - 1;
      assert turns[..n + 1] == turns;
      SafePrefix(turns, n);
      SafeParses(turns[..n], messages[..n], prompt);
      ParsedPending(turns[..n], prompt);
      ParsedReal(turns[..n], prompt);
      ParseOne(Parsed(turns[..n], prompt), turns[n]);
    }
  }

  // Parsing failed, or some turn was lost.
  predicate Lost(r: Result<seq<Entry>, Error>, n: nat) {
    r.Ok? ==> NoneSynthesized(r.value) && |ToAnthropic(r.value)| < n
  }

  // Any other history is refused, or comes back shorter.
  lemma {:induction false} UnsafeFails(turns: seq<Entry>, messages: seq<AMessage>, prompt: string)
    requires NoSystem(turns) && Serialized(turns, messages) && !AnthropicSafeAll(turns)
    ensures Lost(FromAnthropic(messages, prompt), |turns|)
    decreases |turns|
  {
    var n := |turns| - 1;
    var init, before := turns[..n], messages[..n];
    if AnthropicSafeAll(init) {
      UnsafeLast(turns, messages, prompt);
    } else {
      UnsafeFails(init, before, prompt);
      LostStays(before, messages[n], turns[n], prompt);
      assert before + [messages[n]] == messages;
    }
  }

  lemma {:induction false} LostStays(before: seq<AMessage>, message: AMessage, e: Entry, prompt: string)
    requires Lost(FromAnthropic(before, prompt), |before|) && message == ToAMessage(e) && e.role != System
    ensures Lost(FromAnthropic(before + [message], prompt), |before| + 1)
  {
    assert (before + [message])[..|before|] == before;
    if FromAnthropic(before, prompt).Ok? {
      AddsAtMostOne(FromAnthropic(before, prompt).value, e);
    }
  }

  lemma {:induction false} AddsAtMostOne(entries: seq<Entry>, e: Entry)
    requires e.role != System && NoneSynthesized(entries)
    ensures var r := AddAMessage(entries, ToAMessage(e));
            r.Ok? ==> NoneSynthesized(r.value) && |ToAnthropic(r.value)| <= |ToAnthropic(entries)| + 1
  {
    ParseOne(entries, e);
    SerializeOneMore(entries, Canon(e));
    StillReal(entries, e);
  }

  lemma {:induction false} UnsafeLast(turns: seq<Entry>, messages: seq<AMessage>, prompt: string)
    requires NoSystem(turns) && Serialized(turns, messages) && turns != []
    requires AnthropicSafeAll(turns[..|turns| - 1]) && !AnthropicSafeAll(turns)
    ensures Lost(FromAnthropic(messages, prompt), |turns|)
  {
    var n := |turns| - 1;
    assert turns[..n + 1] == turns;
    SafePrefix(turns, n);
    SafeParses(turns[..n], messages[..n], prompt);
    ParsedPending(turns[..n], prompt);
    ParsedReal(turns[..n], prompt);
    ParsedSerializes(turns[..n], messages[..n], prompt);
    ParseOne(Parsed(turns[..n], prompt), turns[n]);
  }

  lemma {:induction false} TurnsHaveNoSystem(entries: seq<Entry>)
    ensures NoSystem(Turns(entries))
  {
    if entries != [] {
      TurnsHaveNoSystem(entries[..|entries| - 1]);
    }
  }

  // Serialize, parse, serialize gives the first serialization back, exactly for
  // histories whose user entries are not empty and answer open calls with results only.
  lemma {:induction false} AnthropicRoundTrip(entries: seq<Entry>, prompt: string)
    ensures var wire := ToAnthropic(entries);
            var parsed := FromAnthropic(wire, prompt);
            (parsed.Ok? && ToAnthropic(parsed.value) == wire) <==> AnthropicSafeAll(Turns(entries))
  {
    var turns, wire := Turns(entries), ToAnthropic(entries);
    TurnsHaveNoSystem(entries);
    if AnthropicSafeAll(turns) {
      SafeParses(turns, wire, prompt);
      ParsedSerializes(turns, wire, prompt);
    } else {
      UnsafeFails(turns, wire, prompt);
    }
  }

  // An empty user entry is written as an empty list of blocks, which reads as no entry.
  lemma {:induction false} EmptyEntryIsLost()
    ensures var wire := ToAnthropic([Entry(User, [])]);
            |wire| == 1 && FromAnthropic(wire, "") == Ok([])
  {
    var e := Entry(User, []);
    SerializeOneMore([], e);
    assert [] + [e] == [e];
    ParseOne([], e);
  }
}
