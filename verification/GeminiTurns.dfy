/** The canonical history as Gemini turns and back
    (src/lingtai/llm/interface_converters.py). */
module GeminiTurns {
  import opened Wrappers
  import opened WireFormats

  datatype GBlock =
    | GText(text: string)
    | GCall(id: string, name: string, arguments: string)
    | GResult(callId: string, result: string, name: string)
    | GThought(summary: seq<string>)      // its text parts

  datatype Turn = Turn(model: bool, content: seq<GBlock>)

  function ToGBlock(b: Block): GBlock {
    match b
    case Text(text) => GText(text)
    case Thinking(text, _, _) => GThought(if text == "" then [] else [text])
    case Call(id, name, args) => GCall(id, name, args)
    case Result(id, name, content, _) => GResult(id, Dump(content), name)
  }

  function FromGBlock(b: GBlock): Block {
    match b
    case GText(text) => Text(text)
    case GCall(id, name, arguments) => Call(id, name, arguments)
    case GResult(id, result, name) => Result(id, name, Plain(result), false)
    case GThought(summary) => Thinking(if summary == [] then "" else summary[0], "", None)
  }

  function ToGBlocks(blocks: seq<Block>): (r: seq<GBlock>)
    ensures |r| == |blocks| && forall i :: 0 <= i < |blocks| ==> r[i] == ToGBlock(blocks[i])
  {
    seq(|blocks|, i requires 0 <= i < |blocks| => ToGBlock(blocks[i]))
  }

  function FromGBlocks(blocks: seq<GBlock>): (r: seq<Block>)
    ensures |r| == |blocks| && forall i :: 0 <= i < |blocks| ==> r[i] == FromGBlock(blocks[i])
  {
    seq(|blocks|, i requires 0 <= i < |blocks| => FromGBlock(blocks[i]))
  }

  function ToTurn(e: Entry): Turn {
    Turn(e.role == Assistant, ToGBlocks(e.content))
  }

  function ToGemini(entries: seq<Entry>): (r: seq<Turn>)
    ensures |r| == |Turns(entries)| && forall i :: 0 <= i < |r| ==> r[i] == ToTurn(Turns(entries)[i])
  {
    if entries == [] then []
    else
      var last := entries[|entries| - 1];
      ToGemini(entries[..|entries| - 1]) + (if last.role == System then [] else [ToTurn(last)])
  }

  method SerializeGemini(entries: seq<Entry>) returns (turns: seq<Turn>)
    ensures turns == ToGemini(entries)
  {
    turns := [];
    for i := 0 to |entries|
      invariant turns == ToGemini(entries[..i])
    {
      var entry := entries[i];
      assert entries[..i + 1][..i] == entries[..i];
      if entry.role != System {
        turns := turns + [ToTurn(entry)];
      }
    }
    assert entries[..|entries|] == entries;
  }

  function OnlyResults(blocks: seq<Block>): (r: seq<Block>)
    ensures AllResults(r) && |r| <= |blocks|
    ensures |r| == |blocks| <==> AllResults(blocks)
    ensures AllResults(blocks) ==> r == blocks
    ensures blocks != [] && blocks[0].Result? ==> r != []
    ensures forall b <- r :: b in blocks
  {
    if blocks == [] then []
    else
      assert blocks == [blocks[0]] + blocks[1..];
      (if blocks[0].Result? then [blocks[0]] else []) + OnlyResults(blocks[1..])
  }

  // What one turn adds to the history: a turn that starts with a result keeps only its results.
  function AddTurn(entries: seq<Entry>, turn: Turn): Wrappers.Result<seq<Entry>, Error> {
    var blocks := FromGBlocks(turn.content);
    if turn.model then Ok(entries + [Entry(Assistant, blocks)])
    else if blocks != [] && blocks[0].Result? then Ok(AddToolResults(entries, OnlyResults(blocks), []))
    else if |blocks| == 1 && blocks[0].Text? then AddUserMessage(entries, blocks[0].text)
    else AddUserBlocks(entries, blocks)
  }

  function FromGemini(turns: seq<Turn>, prompt: string): Wrappers.Result<seq<Entry>, Error> {
    if turns == [] then Ok(Opening(prompt))
    else match FromGemini(turns[..|turns| - 1], prompt)
      case Err(e) => Err(e)
      case Ok(entries) => AddTurn(entries, turns[|turns| - 1])
  }

  method ParseGemini(turns: seq<Turn>, prompt: string) returns (r: Wrappers.Result<seq<Entry>, Error>)
    ensures r == FromGemini(turns, prompt)
  {
    r := Ok(Opening(prompt));
    for i := 0 to |turns|
      invariant r.Ok? && r == FromGemini(turns[..i], prompt)
    {
      assert turns[..i + 1][..i] == turns[..i];
      r := AddTurn(r.value, turns[i]);
      if r.Err? {
        FailureStays(turns, prompt, i + 1);
        return;
      }
    }
    assert turns[..|turns|] == turns;
  }

  lemma {:induction false} FailureStays(turns: seq<Turn>, prompt: string, i: nat)
    requires i <= |turns| && FromGemini(turns[..i], prompt).Err?
    ensures FromGemini(turns, prompt) == FromGemini(turns[..i], prompt)
    decreases |turns|
  {
    if i < |turns| {
      var init := turns[..|turns| - 1];
      assert init[..i] == turns[..i];
      FailureStays(init, prompt, i);
    } else {
      assert turns[..i] == turns;
    }
  }

  // ----- the round trip -----

  function Canon(e: Entry): Entry {
    Entry(e.role, CanonBlocks(e.content))
  }

  function CanonBlock(b: Block): Block {
    FromGBlock(ToGBlock(b))
  }

  function CanonBlocks(content: seq<Block>): (r: seq<Block>)
    ensures |r| == |content| && forall i :: 0 <= i < |content| ==> r[i] == CanonBlock(content[i])
  {
    seq(|content|, i requires 0 <= i < |content| => CanonBlock(content[i]))
  }

  // A user entry that starts with a result holds nothing else; any other one
  // comes only when no call is open.
  predicate GeminiSafe(turns: seq<Entry>, k: nat)
    requires k < |turns|
  {
    var content := turns[k].content;
    turns[k].role == User ==>
      if content != [] && content[0].Result? then forall b <- content :: b.Result? else !OpenBefore(turns, k)
  }

  predicate GeminiSafeAll(turns: seq<Entry>) {
    forall k :: 0 <= k < |turns| ==> GeminiSafe(turns, k)
  }

  lemma {:induction false} CanonSerializes(e: Entry)
    requires e.role != System
    ensures ToTurn(Canon(e)) == ToTurn(e)
  {
    assert ToGBlocks(CanonBlocks(e.content)) == ToGBlocks(e.content);
  }

  lemma {:induction false} KindKept(content: seq<Block>)
    ensures FromGBlocks(ToGBlocks(content)) == CanonBlocks(content)
    ensures AllResults(CanonBlocks(content)) <==> AllResults(content)
    ensures HasCall(CanonBlocks(content)) <==> HasCall(content)
  {
    var c := CanonBlocks(content);
    forall i | 0 <= i < |content|
      ensures c[i].Result? <==> content[i].Result?
      ensures c[i].Call? <==> content[i].Call?
      ensures content[i] in content && c[i] in c
    {
    }
  }

  // What parsing makes of one serialized entry.
  lemma {:induction false} ParseOne(entries: seq<Entry>, e: Entry)
    requires e.role != System && NoneSynthesized(entries)
    ensures AddTurn(entries, ToTurn(e)) ==
            if e.role == User && e.content != [] && e.content[0].Result? then
              Ok(entries + [Entry(User, OnlyResults(CanonBlocks(e.content)))])
            else if e.role == User && HasPending(entries) then Err(PendingToolCalls)
            else Ok(entries + [Canon(e)])
  {
    KindKept(e.content);
    var blocks := CanonBlocks(e.content);
    if e.role == User {
      if blocks != [] && blocks[0].Result? {
        ParseResults(entries, e);
      } else {
        ParseOther(entries, e);
      }
    }
  }

  lemma {:induction false} ParseResults(entries: seq<Entry>, e: Entry)
    requires e.role == User && e.content != [] && e.content[0].Result? && NoneSynthesized(entries)
    ensures AddTurn(entries, ToTurn(e)) == Ok(entries + [Entry(User, OnlyResults(CanonBlocks(e.content)))])
  {
    KindKept(e.content);
    var results := OnlyResults(CanonBlocks(e.content));
    ResultsAppend(entries, results, []);
    assert [] + results == results;
  }

  // A user entry that does not start with a result is refused while calls are open.
  lemma {:induction false} ParseOther(entries: seq<Entry>, e: Entry)
    requires e.role == User && !(e.content != [] && e.content[0].Result?)
    ensures AddTurn(entries, ToTurn(e)) ==
            if HasPending(entries) then Err(PendingToolCalls) else Ok(entries + [Canon(e)])
  {
    KindKept(e.content);
    var blocks := CanonBlocks(e.content);
    if blocks != [] {
      assert blocks[0] in blocks;
      if |blocks| == 1 && blocks[0].Text? {
        assert blocks == [Text(blocks[0].text)];
      }
    }
  }

  // What parsing gives for safe turns, one after the other.
  function Parsed(turns: seq<Entry>, prompt: string): seq<Entry> {
    if turns == [] then Opening(prompt)
    else Parsed(turns[..|turns| - 1], prompt) + [Canon(turns[|turns| - 1])]
  }

  predicate Serialized(turns: seq<Entry>, wire: seq<Turn>) {
    |wire| == |turns| && forall i :: 0 <= i < |turns| ==> wire[i] == ToTurn(turns[i])
  }

  lemma {:induction false} ParsedPending(turns: seq<Entry>, prompt: string)
    ensures HasPending(Parsed(turns, prompt)) <==> HasPending(turns)
  {
    if turns != [] {
      KindKept(turns[|turns| - 1].content);
    }
  }

  lemma {:induction false} StillReal(entries: seq<Entry>, e: Entry, content: seq<Block>)
    requires NoneSynthesized(entries) && forall b <- content :: b in CanonBlocks(e.content)
    ensures NoneSynthesized(entries + [Entry(e.role, content)])
  {
    forall b | b in content && b.Result?
      ensures !b.synthesized
    {
      var j :| 0 <= j < |e.content| && CanonBlocks(e.content)[j] == b;
      assert b == CanonBlock(e.content[j]);
    }
  }

  lemma {:induction false} ParsedReal(turns: seq<Entry>, prompt: string)
    ensures NoneSynthesized(Parsed(turns, prompt))
  {
    if turns != [] {
      ParsedReal(turns[..|turns| - 1], prompt);
      var last := turns[|turns| - 1];
      StillReal(Parsed(turns[..|turns| - 1], prompt), last, CanonBlocks(last.content));
    }
  }

  lemma {:induction false} SerializeOneMore(entries: seq<Entry>, e: Entry)
    ensures ToGemini(entries + [e]) == ToGemini(entries) + if e.role == System then [] else [ToTurn(e)]
  {
    assert (entries + [e])[..|entries|] == entries;
  }

  lemma {:induction false} OpeningIsSilent(prompt: string)
    ensures ToGemini(Opening(prompt)) == []
  {
    if prompt != "" {
      SerializeOneMore([], Entry(System, [Text(prompt)]));
      assert [] + [Entry(System, [Text(prompt)])] == Opening(prompt);
    }
  }

  // The parsed history serializes to the same turns.
  lemma {:induction false} ParsedSerializes(turns: seq<Entry>, wire: seq<Turn>, prompt: string)
    requires NoSystem(turns) && Serialized(turns, wire)
    ensures ToGemini(Parsed(turns, prompt)) == wire
  {
    if turns == [] {
      OpeningIsSilent(prompt);
    } else {
      var n := |turns| - 1;
      ParsedSerializes(turns[..n], wire[..n], prompt);
      SerializeOneMore(Parsed(turns[..n], prompt), Canon(turns[n]));
      CanonSerializes(turns[n]);
      assert wire == wire[..n] + [wire[n]];
    }
  }

  lemma {:induction false} SafePrefix(turns: seq<Entry>, n: nat)
    requires n < |turns|
    ensures GeminiSafeAll(turns[..n + 1]) <==> GeminiSafeAll(turns[..n]) && GeminiSafe(turns, n)
  {
    var longer, shorter := turns[..n + 1], turns[..n];
    forall k | 0 <= k <= n
      ensures GeminiSafe(longer, k) <==> GeminiSafe(turns, k)
      ensures k < n ==> (GeminiSafe(shorter, k) <==> GeminiSafe(turns, k))
    {
      assert longer[..k] == turns[..k];
      assert k < n ==> shorter[..k] == turns[..k];
    }
  }

  // Safe histories parse to the same turns in canonical form.
  lemma {:induction false} SafeParses(turns: seq<Entry>, wire: seq<Turn>, prompt: string)
    requires NoSystem(turns) && Serialized(turns, wire) && GeminiSafeAll(turns)
    ensures FromGemini(wire, prompt) == Ok(Parsed(turns, prompt))
  {
    if turns != [] {
      var n := |turns| - 1;
      assert turns[..n + 1] == turns;
      SafePrefix(turns, n);
      SafeParses(turns[..n], wire[..n], prompt);
      ParsedPending(turns[..n], prompt);
      ParsedReal(turns[..n], prompt);
      ParseOne(Parsed(turns[..n], prompt), turns[n]);
      KindKept(turns[n].content);
    }
  }

  // Parsing failed, or what it gives does not serialize to the same turns.
  predicate Differs(r: Wrappers.Result<seq<Entry>, Error>, wire: seq<Turn>) {
    r.Ok? ==> NoneSynthesized(r.value) && |ToGemini(r.value)| == |wire| && ToGemini(r.value) != wire
  }

  lemma {:induction false} DiffersStays(before: seq<Turn>, turn: Turn, e: Entry, prompt: string)
    requires Differs(FromGemini(before, prompt), before) && turn == ToTurn(e) && e.role != System
    ensures Differs(FromGemini(before + [turn], prompt), before + [turn])
  {
    assert (before + [turn])[..|before|] == before;
    var r := FromGemini(before, prompt);
    if r.Ok? {
      AddsOne(r.value, e);
      var longer := AddTurn(r.value, turn);
      if longer.Ok? {
        assert ToGemini(longer.value)[..|before|] == ToGemini(r.value);
      }
    }
  }

  lemma {:induction false} AddsOne(entries: seq<Entry>, e: Entry)
    requires e.role != System && NoneSynthesized(entries)
    ensures var r := AddTurn(entries, ToTurn(e));
            r.Ok? ==>
              NoneSynthesized(r.value) && |ToGemini(r.value)| == |ToGemini(entries)| + 1 &&
              ToGemini(entries) <= ToGemini(r.value)
  {
    ParseOne(entries, e);
    var results := OnlyResults(CanonBlocks(e.content));
    SerializeOneMore(entries, Entry(User, results));
    SerializeOneMore(entries, Canon(e));
    StillReal(entries, e, results);
    StillReal(entries, e, CanonBlocks(e.content));
  }

  // Any other history is refused, or loses blocks.
  lemma {:induction false} UnsafeFails(turns: seq<Entry>, wire: seq<Turn>, prompt: string)
    requires NoSystem(turns) && Serialized(turns, wire) && !GeminiSafeAll(turns)
    ensures Differs(FromGemini(wire, prompt), wire)
    decreases |turns|
  {
    var n := |turns| - 1;
    var init, before := turns[..n], wire[..n];
    if GeminiSafeAll(init) {
      UnsafeLast(turns, wire, prompt);
    } else {
      UnsafeFails(init, before, prompt);
      DiffersStays(before, wire[n], turns[n], prompt);
      assert before + [wire[n]] == wire;
    }
  }

  lemma {:induction false} UnsafeLast(turns: seq<Entry>, wire: seq<Turn>, prompt: string)
    requires NoSystem(turns) && Serialized(turns, wire) && turns != []
    requires GeminiSafeAll(turns[..|turns| - 1]) && !GeminiSafeAll(turns)
    ensures Differs(FromGemini(wire, prompt), wire)
  {
    var n := |turns| - 1;
    assert turns[..n + 1] == turns;
    SafePrefix(turns, n);
    SafeParses(turns[..n], wire[..n], prompt);
    ParsedPending(turns[..n], prompt);
    ParsedReal(turns[..n], prompt);
    ParsedSerializes(turns[..n], wire[..n], prompt);
    LastFails(Parsed(turns[..n], prompt), turns, wire);
  }

  lemma {:induction false} LastFails(entries: seq<Entry>, turns: seq<Entry>, wire: seq<Turn>)
    requires turns != [] && |wire| == |turns| && turns[|turns| - 1].role != System
    requires wire[|turns| - 1] == ToTurn(turns[|turns| - 1])
    requires !GeminiSafe(turns, |turns| - 1) && ToGemini(entries) == wire[..|turns| - 1]
    requires NoneSynthesized(entries) && (HasPending(entries) <==> HasPending(turns[..|turns| - 1]))
    ensures Differs(AddTurn(entries, wire[|turns| - 1]), wire)
  {
    var last := turns[|turns| - 1];
    if last.content != [] && last.content[0].Result? {
      MixedLoses(entries, last);
    } else {
      ParseOne(entries, last);
    }
  }

  lemma {:induction false} MixedLoses(entries: seq<Entry>, e: Entry)
    requires NoneSynthesized(entries) && e.role == User && e.content != [] && e.content[0].Result?
             && !AllResults(e.content)
    ensures var r := AddTurn(entries, ToTurn(e));
            r.Ok? && NoneSynthesized(r.value)
                && ToGemini(r.value) == ToGemini(entries) + [ToTurn(Entry(User, OnlyResults(CanonBlocks(e.content))))]
    ensures ToTurn(Entry(User, OnlyResults(CanonBlocks(e.content)))) != ToTurn(e)
  {
    ParseOne(entries, e);
    KindKept(e.content);
    var results := OnlyResults(CanonBlocks(e.content));
    SerializeOneMore(entries, Entry(User, results));
    StillReal(entries, e, results);
    assert |ToTurn(Entry(User, results)).content| < |ToTurn(e).content|;
  }

  // Serialize, parse, serialize gives the first serialization back, exactly for
  // histories whose result entries are homogeneous and answer every open call at once.
  lemma {:induction false} GeminiRoundTrip(entries: seq<Entry>, prompt: string)
    ensures var wire := ToGemini(entries);
            var parsed := FromGemini(wire, prompt);
            (parsed.Ok? && ToGemini(parsed.value) == wire) <==> GeminiSafeAll(Turns(entries))
  {
    var turns, wire := Turns(entries), ToGemini(entries);
    TurnsHaveNoSystem(entries);
    if GeminiSafeAll(turns) {
      SafeParses(turns, wire, prompt);
      ParsedSerializes(turns, wire, prompt);
    } else {
      UnsafeFails(turns, wire, prompt);
    }
  }

  // A result and a remark in one user entry: the remark is gone after parsing.
  lemma {:induction false} RemarkIsLost(r: Block, remark: string)
    requires r.Result?
    ensures var parsed := FromGemini(ToGemini([Entry(User, [r, Text(remark)])]), "");
            parsed == Ok([Entry(User, [CanonBlock(r)])])
  {
    var e := Entry(User, [r, Text(remark)]);
    OneEntry(e);
    ParseOne([], e);
    ResultFirst(CanonBlock(r), remark);
    assert CanonBlocks(e.content) == [CanonBlock(r), Text(remark)];
    assert [] + [Entry(User, [CanonBlock(r)])] == [Entry(User, [CanonBlock(r)])];
  }

  lemma {:induction false} OneEntry(e: Entry)
    requires e.role != System
    ensures FromGemini(ToGemini([e]), "") == AddTurn([], ToTurn(e))
  {
    SerializeOneMore([], e);
    assert [] + [e] == [e];
    assert ToGemini([e]) == [ToTurn(e)];
    assert [ToTurn(e)][..0] == [];
  }

  lemma {:induction false} ResultFirst(r: Block, remark: string)
    requires r.Result?
    ensures OnlyResults([r, Text(remark)]) == [r]
  {
    assert [r, Text(remark)][1..] == [Text(remark)] && [Text(remark)][1..] == [];
    assert OnlyResults([Text(remark)]) == [];
  }
}
