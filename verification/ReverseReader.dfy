/** The bounded tail-first JSONL reader and the newest-match search over it
    (src/lingtai_kernel/tool_result_recovery.py). */
module ReverseReader {
  import opened Wrappers
  import opened LogLines

  // UTF-8 decoding and stripping of one raw line; None when decoding fails.
  type Decoder = Line -> Option<string>

  // The text of the non-empty, decodable lines, last line first.
  function NewestFirst(decode: Decoder, lines: seq<Line>): (r: seq<string>) {
    if lines == [] then []
    else
      var last := lines[|lines| - 1];
      var older := NewestFirst(decode, lines[..|lines| - 1]);
      if last == [] || decode(last).None? then older else [decode(last).value] + older
  }

  lemma {:induction false} NewestFirstConcat(decode: Decoder, a: seq<Line>, b: seq<Line>)
    ensures NewestFirst(decode, a + b) == NewestFirst(decode, b) + NewestFirst(decode, a)
    decreases |b|
  {
    if b == [] {
      assert a + b == a;
    } else {
      var b' := b[..|b| - 1];
      assert (a + b)[..|a + b| - 1] == a + b';
      NewestFirstConcat(decode, a, b');
    }
  }

  lemma {:induction false} NewestFirstLast(decode: Decoder, older: seq<Line>, last: Line)
    ensures NewestFirst(decode, older + [last]) ==
            (if last == [] || decode(last).None? then [] else [decode(last).value]) + NewestFirst(decode, older)
  {
    assert (older + [last])[..|older|] == older;
  }

  // Only non-empty lines matter to the reader.
  lemma {:induction false} NewestFirstSkipsEmpty(decode: Decoder, lines: seq<Line>)
    ensures NewestFirst(decode, NonEmpty(lines)) == NewestFirst(decode, lines)
  {
    if lines != [] {
      NewestFirstSkipsEmpty(decode, lines[1..]);
      assert lines == [lines[0]] + lines[1..];
      NewestFirstConcat(decode, [lines[0]], lines[1..]);
      if lines[0] != [] {
        NewestFirstConcat(decode, [lines[0]], NonEmpty(lines[1..]));
      }
    }
  }

  // Splitting a chunk that carries only the first line of what was read before
  // gives the lines of the whole stretch, without the lines already split off.
  lemma {:induction false} CarrySplit(chunk: seq<byte>, later: seq<byte>)
    ensures Split(chunk + later) == Split(chunk + Split(later)[0]) + Split(later)[1..]
  {
    var first := Split(later)[0];
    JoinSplit(later);
    SplitWithoutNewline(first);
    SplitConcat(chunk, later);
    SplitConcat(chunk, first);
    FuseTail(Split(chunk), Split(later));
  }

  // The complete lines of the window that starts at `start`, when the bytes
  // before `pos` are unread and `carry` and `tail` hold what was read.
  ghost function UnreadLines(file: seq<byte>, start: nat, pos: nat, carry: Line, tail: seq<Line>): seq<Line>
    requires start <= pos <= |file|
  {
    (if pos == 0 then [] else Complete(start == 0, file[start..pos] + carry)) + tail
  }

  // Reading one more chunk changes how the window is held, not its lines.
  lemma {:induction false} ChunkKeepsLines(file: seq<byte>, start: nat, pos: nat, carry: Line, n: nat)
    requires 0 < n && start + n <= pos <= |file|
    ensures var lines := Split(file[pos - n..pos] + carry);
            UnreadLines(file, start, pos, carry, [])
            == if pos - n > 0 then UnreadLines(file, start, pos - n, lines[0], lines[1..])
               else UnreadLines(file, start, 0, [], lines)
  {
    var window, chunk := file[start..pos - n], file[pos - n..pos] + carry;
    assert file[start..pos] + carry == window + chunk;
    CarrySplit(window, chunk);
    if pos == n {
      assert window + chunk == chunk;
    }
  }

  class ReverseLines {
    const file: seq<byte>
    const maxBytes: int
    const chunkSize: nat
    const decode: Decoder
    var pos: nat           // bytes before `pos` have not been read
    var carry: Line        // start of the oldest chunk, up to its first '\n'
    var scannedBytes: nat
    var tail: seq<Line>    // lines of the oldest chunk that were not yielded yet

    ghost function Start(): nat {
      WindowStart(|file|, maxBytes)
    }

    ghost predicate Valid()
      reads this
    {
      && chunkSize >= 1
      && Start() <= pos <= |file|
      && scannedBytes == |file| - pos
      && NEWLINE !in carry
      && (pos == 0 ==> carry == [])
    }

    // The lines of the window still to be yielded, in file order.
    ghost function Unread(): seq<Line>
      requires Valid()
      reads this
    {
      UnreadLines(file, Start(), pos, carry, tail)
    }

    ghost function Pending(): seq<string>
      requires Valid()
      reads this
    {
      NewestFirst(decode, Unread())
    }

    constructor (file: seq<byte>, maxBytes: int, chunkSize: nat, decode: Decoder)
      requires chunkSize >= 1
      ensures Valid() && fresh(this)
      ensures this.file == file && this.maxBytes == maxBytes && this.decode == decode
      ensures scannedBytes == 0
      ensures Pending() == NewestFirst(decode, WindowLines(file, maxBytes))
    {
      this.file, this.maxBytes, this.chunkSize, this.decode := file, maxBytes, chunkSize, decode;
      pos, carry, scannedBytes, tail := |file|, [], 0, [];
      new;
      assert this.file[Start()..pos] + carry == file[Start()..];
      assert pos > 0 ==> Unread() == WindowLines(file, maxBytes);
    }

    function ReadSize(): (n: nat)
      requires Valid() && pos > 0 && scannedBytes < maxBytes
      reads this
      ensures 0 < n <= pos && Start() + n <= pos && n <= chunkSize
    {
      var n := if pos < chunkSize then pos else chunkSize;
      if maxBytes - scannedBytes < n then maxBytes - scannedBytes else n
    }

    // One read: the chunk before `pos`, prefixed to the carry and split.
    method ReadChunk()
      requires Valid() && tail == [] && pos > 0 && scannedBytes < maxBytes
      modifies this
      ensures Valid() && old(pos) - chunkSize <= pos < old(pos)
      ensures scannedBytes == old(scannedBytes) + (old(pos) - pos) <= maxBytes
      ensures Unread() == old(Unread())
    {
      var readSize := ReadSize();
      ChunkKeepsLines(file, Start(), pos, carry, readSize);
      pos := pos - readSize;
      var chunk := file[pos..pos + readSize] + carry;
      scannedBytes := scannedBytes + readSize;
      var lines := Split(chunk);
      JoinSplit(chunk);
      if pos > 0 {
        carry, tail := lines[0], lines[1..];
      } else {
        carry, tail := [], lines;
      }
    }

    method PopLine() returns (raw: Line)
      requires Valid() && tail != []
      modifies this`tail
      ensures Valid() && |tail| < |old(tail)|
      ensures old(Pending()) == (if raw == [] || decode(raw).None? then [] else [decode(raw).value]) + Pending()
    {
      ghost var all := Unread();
      raw := tail[|tail| - 1];
      tail := tail[..|tail| - 1];
      assert all == Unread() + [raw];
      NewestFirstLast(decode, Unread(), raw);
    }

    // Yields the next line, newest first, or None at the end of the window.
    method Next() returns (r: Option<string>)
      requires Valid()
      modifies this
      ensures Valid()
      ensures old(Pending()) == [] ==> r == None && Pending() == []
      ensures old(Pending()) != [] ==> r == Some(old(Pending())[0]) && Pending() == old(Pending())[1..]
      ensures r.None? ==> pos == Start()
    {
      while true
        invariant Valid() && Pending() == old(Pending())
        decreases pos, |tail|
      {
        if tail != [] {
          var raw := PopLine();
          if raw != [] {
            var text := decode(raw);
            if text.Some? {
              return text;
            }
          }
        } else if pos > 0 && scannedBytes < maxBytes {
          ReadChunk();
        } else {
          EndOfWindow();
          return None;
        }
      }
    }

    // Once the budget or the file is used up, nothing complete is left unread.
    lemma {:induction false} EndOfWindow()
      requires Valid() && tail == [] && !(pos > 0 && scannedBytes < maxBytes)
      ensures pos == Start() && Pending() == []
    {
      if pos > 0 {
        assert file[Start()..pos] + carry == carry;
        SplitWithoutNewline(carry);
      }
    }
  }

  // ----- newest-match search -----

  datatype Json = Null | Str(s: string) | Opaque(text: string)

  type Fields = map<string, Json>

  // json.loads of one line; None when it fails or gives no object.
  type Parser = string -> Option<Fields>

  function Get(f: Fields, key: string): Json {
    if key in f then f[key] else Null
  }

  function EventType(f: Fields): Json {
    if "type" in f then f["type"] else Get(f, "event")
  }

  // The exact-field test a recovered event has to pass.
  predicate Wanted(parse: Parser, line: string, callId: string, toolName: string) {
    && parse(line).Some?
    && var f := parse(line).value;
    && EventType(f) == Str("tool_result")
    && Get(f, "tool_call_id") == Str(callId)
    && (Get(f, "tool_name") == Null || Get(f, "tool_name") == Str(toolName))
    && "result" in f
  }

  predicate Contains(text: string, part: string) {
    exists i :: 0 <= i < |text| + 1 && part <= text[i..]
  }

  predicate Prefilter(line: string, callId: string) {
    Contains(line, callId) && Contains(line, "tool_result")
  }

  predicate Accepted(parse: Parser, line: string, callId: string, toolName: string) {
    Prefilter(line, callId) && Wanted(parse, line, callId, toolName)
  }

  // With the substring test in front, or by the exact test alone.
  predicate Passes(prefilter: bool, parse: Parser, line: string, callId: string, toolName: string) {
    if prefilter then Accepted(parse, line, callId, toolName) else Wanted(parse, line, callId, toolName)
  }

  // The lines the search may look at, newest first.
  function Scanned(file: seq<byte>, decode: Decoder, maxBytes: int, maxEvents: int): seq<string> {
    Limit(NewestFirst(decode, WindowLines(file, maxBytes)), maxEvents)
  }

  // `v` shows up unescaped in every line that parses to an object holding it.
  ghost predicate SerializesVerbatim(parse: Parser, v: string) {
    forall line, key ::
      parse(line).Some? && key in parse(line).value && parse(line).value[key] == Str(v) ==> Contains(line, v)
  }

  // The substring test only saves parsing: it rejects no wanted line.
  lemma {:induction false} PrefilterKeepsLine(parse: Parser, line: string, callId: string, toolName: string)
    requires SerializesVerbatim(parse, callId) && SerializesVerbatim(parse, "tool_result")
    ensures Accepted(parse, line, callId, toolName) <==> Wanted(parse, line, callId, toolName)
  {
    if Wanted(parse, line, callId, toolName) {
      var f := parse(line).value;
      var key := if "type" in f then "type" else "event";
      assert f[key] == Str("tool_result");
      assert f["tool_call_id"] == Str(callId);
    }
  }

  datatype Recovered = Recovered(result: Json, ts: Json, toolName: Json, scannedEvents: nat)

  function Recover(f: Fields, scannedEvents: nat): Recovered {
    Recovered(Get(f, "result"), Get(f, "ts"), Get(f, "tool_name"), scannedEvents)
  }

  // The search accepts none of the first n lines.
  ghost predicate NonePasses(prefilter: bool, parse: Parser, lines: seq<string>, n: nat, callId: string,
      toolName: string)
    requires n <= |lines|
  {
    forall i :: 0 <= i < n ==> !Passes(prefilter, parse, lines[i], callId, toolName)
  }

  // `i` is the newest scanned line the search accepts.
  ghost predicate IsNewest(prefilter: bool, parse: Parser, lines: seq<string>, i: nat, callId: string,
      toolName: string) {
    && i < |lines|
    && Passes(prefilter, parse, lines[i], callId, toolName)
    && NonePasses(prefilter, parse, lines, i, callId, toolName)
  }

  // The answer is the newest accepted line, or None when there is none.
  ghost predicate Answers(prefilter: bool, parse: Parser, lines: seq<string>, callId: string, toolName: string,
                          r: Option<Recovered>) {
    match r
    case None => NonePasses(prefilter, parse, lines, |lines|, callId, toolName)
    case Some(hit) =>
      exists i: nat :: IsNewest(prefilter, parse, lines, i, callId, toolName)
             && hit == Recover(parse(lines[i]).value, i + 1)
  }

  // So the whole search answers as it would without the substring test: with the
  // newest line that passes the exact field test.
  lemma {:induction false} PrefilterIsTransparent(parse: Parser, lines: seq<string>, callId: string, toolName: string,
                                                  r: Option<Recovered>)
    requires SerializesVerbatim(parse, callId) && SerializesVerbatim(parse, "tool_result")
    ensures Answers(true, parse, lines, callId, toolName, r) <==> Answers(false, parse, lines, callId, toolName, r)
  {
    forall i | 0 <= i < |lines|
      ensures Passes(true, parse, lines[i], callId, toolName) <==> Passes(false, parse, lines[i], callId, toolName)
    {
      PrefilterKeepsLine(parse, lines[i], callId, toolName);
    }
    forall i: nat
      ensures IsNewest(true, parse, lines, i, callId, toolName) <==> IsNewest(false, parse, lines, i, callId, toolName)
    {
    }
  }

  // The event a line holds, if it is this call's result: of that type, or of no type
  // and that event; with this id; of this tool or of an unnamed one; with a result.
  ghost predicate Holds(parse: Parser, line: string, callId: string, toolName: string, f: Fields) {
    && parse(line) == Some(f)
    && (if "type" in f then f["type"] == Str("tool_result") else "event" in f && f["event"] == Str("tool_result"))
    && "tool_call_id" in f && f["tool_call_id"] == Str(callId)
    && ("tool_name" in f ==> f["tool_name"] == Null || f["tool_name"] == Str(toolName))
    && "result" in f
  }

  lemma {:induction false} WantedHolds(parse: Parser, line: string, callId: string, toolName: string)
    ensures Wanted(parse, line, callId, toolName) <==>
            parse(line).Some? && Holds(parse, line, callId, toolName, parse(line).value)
  {
  }

  // When ids are written verbatim, the answer is the newest scanned event that holds
  // this call's result, with its place among the scanned lines; None says there is none.
  lemma {:induction false} AnswerIsNewest(parse: Parser, lines: seq<string>, callId: string, toolName: string,
                                          r: Option<Recovered>, i: nat, f: Fields)
    requires SerializesVerbatim(parse, callId) && SerializesVerbatim(parse, "tool_result")
    requires Answers(true, parse, lines, callId, toolName, r)
    ensures i < |lines| && Holds(parse, lines[i], callId, toolName, f) ==> r.Some? && r.value.scannedEvents <= i + 1
    ensures r.Some? ==> 0 < r.value.scannedEvents <= |lines|
    ensures r.Some? && parse(lines[r.value.scannedEvents - 1]) == Some(f) ==>
              && Holds(parse, lines[r.value.scannedEvents - 1], callId, toolName, f)
              && r.value.result == f["result"]
              && r.value.ts == (if "ts" in f then f["ts"] else Null)
              && r.value.toolName == (if "tool_name" in f then f["tool_name"] else Null)
  {
    PrefilterIsTransparent(parse, lines, callId, toolName, r);
    if i < |lines| {
      WantedHolds(parse, lines[i], callId, toolName);
    }
    if r.Some? {
      var k: nat :|
        IsNewest(false, parse, lines, k, callId, toolName) && r.value == Recover(parse(lines[k]).value, k + 1);
      assert Wanted(parse, lines[k], callId, toolName);
      WantedHolds(parse, lines[k], callId, toolName);
      RecoveredIs(parse(lines[k]).value, k + 1);
    }
  }

  lemma {:induction false} RecoveredIs(f: Fields, scannedEvents: nat)
    requires "result" in f
    ensures var r := Recover(f, scannedEvents);
            && r.scannedEvents == scannedEvents && r.result == f["result"]
            && r.ts == (if "ts" in f then f["ts"] else Null)
            && r.toolName == (if "tool_name" in f then f["tool_name"] else Null)
  {
  }

  // An event limit that is positive cuts the search off; any other has no effect.
  lemma {:induction false} LimitIs(all: seq<string>, maxEvents: int)
    ensures Limit(all, maxEvents) <= all
    ensures maxEvents <= 0 || maxEvents >= |all| ==> Limit(all, maxEvents) == all
    ensures 0 < maxEvents < |all| ==> |Limit(all, maxEvents)| == maxEvents
  {
  }

  method FindLatestToolResult(file: Option<seq<byte>>, callId: string, toolName: string, maxBytes: int, maxEvents: int,
                              chunkSize: nat, decode: Decoder, parse: Parser)
    returns (r: Option<Recovered>)
    requires chunkSize >= 1
    ensures callId == "" || file.None? ==> r == None
    ensures callId != "" && file.Some? ==>
              Answers(true, parse, Scanned(file.value, decode, maxBytes, maxEvents), callId, toolName, r)
  {
    if callId == "" || file.None? {
      return None;
    }
    var reader := new ReverseLines(file.value, maxBytes, chunkSize, decode);
    r := SearchLines(reader, callId, toolName, maxEvents, parse);
  }

  function Limit(all: seq<string>, maxEvents: int): seq<string> {
    if 0 < maxEvents < |all| then all[..maxEvents] else all
  }

  method SearchLines(reader: ReverseLines, callId: string, toolName: string, maxEvents: int, parse: Parser)
    returns (r: Option<Recovered>)
    requires reader.Valid()
    modifies reader
    ensures Answers(true, parse, old(Limit(reader.Pending(), maxEvents)), callId, toolName, r)
  {
    ghost var all := reader.Pending();
    ghost var lines := Limit(all, maxEvents);
    var scannedEvents := 0;
    while true
      invariant reader.Valid() && scannedEvents <= |lines| && reader.Pending() == all[scannedEvents..]
      invariant NonePasses(true, parse, lines, scannedEvents, callId, toolName)
      decreases |lines| - scannedEvents
    {
      var next := reader.Next();
      if next.None? || (maxEvents > 0 && scannedEvents >= maxEvents) {
        assert scannedEvents == |lines|;
        return None;
      }
      var line := next.value;
      assert line == lines[scannedEvents];
      scannedEvents := scannedEvents + 1;
      var hit := Examine(parse, line, callId, toolName);
      if hit.Some? {
        assert IsNewest(true, parse, lines, scannedEvents - 1, callId, toolName);
        return Some(Recover(hit.value, scannedEvents));
      }
    }
  }

  // One iteration of the search: the parsed event if the line is the one wanted.
  method Examine(parse: Parser, line: string, callId: string, toolName: string) returns (hit: Option<Fields>)
    ensures hit == if Accepted(parse, line, callId, toolName) then parse(line) else None
  {
    hit := None;
    if !Prefilter(line, callId) {
      return;
    }
    var event := parse(line);
    if event.None? || EventType(event.value) != Str("tool_result") {
      return;
    }
    if Get(event.value, "tool_call_id") != Str(callId) {
      return;
    }
    if Get(event.value, "tool_name") != Null && Get(event.value, "tool_name") != Str(toolName) {
      return;
    }
    if "result" !in event.value {
      return;
    }
    hit := event;
  }
}
