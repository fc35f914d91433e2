/** Rebuilding the since-molt token totals from the event log
    (src/lingtai_kernel/agent_session.py). */
module AgentSession {
  import opened Wrappers
  import opened LogLines
  import ReverseReader

  // Tokens of one provider round; `cached` is part of `input`, `thinking` comes with `output`.
  datatype Prompt = Prompt(input: int, cached: int)
  datatype Reply = Reply(output: int, thinking: int)
  datatype Usage = Usage(prompt: Prompt, reply: Reply)

  datatype LogEvent =
    | Boundary(ts: Option<int>, initiator: Option<string>)
    | Token(usage: Usage)
    | Other
    | Malformed

  // json.loads of one stripped line, classified by event type; missing or
  // unusable token fields are 0.
  type EventParser = Line -> LogEvent

  function EventOf(parse: EventParser, line: Line): LogEvent {
    if line == [] then Malformed else parse(line)
  }

  function Events(parse: EventParser, lines: seq<Line>): (r: seq<LogEvent>)
    ensures |r| == |lines|
  {
    seq(|lines|, i requires 0 <= i < |lines| => EventOf(parse, lines[i]))
  }

  // ----- the meaning of a log -----

  datatype Counter = ApiCalls | Input | Output | Cached | Thinking

  function TokensOf(e: LogEvent, c: Counter): int {
    if !e.Token? then 0
    else match c
      case ApiCalls => 1
      case Input => e.usage.prompt.input
      case Output => e.usage.reply.output
      case Cached => e.usage.prompt.cached
      case Thinking => e.usage.reply.thinking
  }

  // Sum of a counter over events[lo..hi].
  function Sum(events: seq<LogEvent>, lo: nat, hi: nat, c: Counter): int
    requires lo <= hi <= |events|
  {
    if lo == hi then 0 else Sum(events, lo, hi - 1, c) + TokensOf(events[hi - 1], c)
  }

  lemma {:induction false} SumFirst(events: seq<LogEvent>, lo: nat, hi: nat, c: Counter)
    requires lo < hi <= |events|
    ensures Sum(events, lo, hi, c) == TokensOf(events[lo], c) + Sum(events, lo + 1, hi, c)
    decreases hi
  {
    if lo + 1 < hi {
      SumFirst(events, lo, hi - 1, c);
    }
  }

  // events a[lo..hi] and b[lo'..hi'] are the same.
  ghost predicate SameStretch(a: seq<LogEvent>, lo: nat, hi: nat, b: seq<LogEvent>, lo': nat, hi': nat) {
    && lo <= hi <= |a| && lo' <= hi' <= |b| && hi - lo == hi' - lo'
    && forall i :: lo <= i < hi ==> a[i] == b[i - lo + lo']
  }

  lemma {:induction false} SumSame(a: seq<LogEvent>, lo: nat, hi: nat, b: seq<LogEvent>, lo': nat, hi': nat, c: Counter)
    requires SameStretch(a, lo, hi, b, lo', hi')
    ensures Sum(a, lo, hi, c) == Sum(b, lo', hi', c)
    decreases hi
  {
    if lo < hi {
      SumSame(a, lo, hi - 1, b, lo', hi' - 1, c);
    }
  }

  datatype Totals = Totals(apiCalls: int, sum: Usage)

  function Zero(): Totals {
    Totals(0, Usage(Prompt(0, 0), Reply(0, 0)))
  }

  function TotalsOf(events: seq<LogEvent>, lo: nat, hi: nat): Totals
    requires lo <= hi <= |events|
  {
    Totals(Sum(events, lo, hi, ApiCalls),
           Usage(Prompt(Sum(events, lo, hi, Input), Sum(events, lo, hi, Cached)),
                 Reply(Sum(events, lo, hi, Output), Sum(events, lo, hi, Thinking))))
  }

  lemma {:induction false} TotalsSame(a: seq<LogEvent>, lo: nat, hi: nat, b: seq<LogEvent>, lo': nat, hi': nat)
    requires SameStretch(a, lo, hi, b, lo', hi')
    ensures TotalsOf(a, lo, hi) == TotalsOf(b, lo', hi')
  {
    forall c: Counter
      ensures Sum(a, lo, hi, c) == Sum(b, lo', hi', c)
    {
      SumSame(a, lo, hi, b, lo', hi', c);
    }
  }

  // One token event added to running totals.
  function CountUsage(t: Totals, u: Usage): Totals {
    var prompt := Prompt(t.sum.prompt.input + u.prompt.input, t.sum.prompt.cached + u.prompt.cached);
    var reply := Reply(t.sum.reply.output + u.reply.output, t.sum.reply.thinking + u.reply.thinking);
    Totals(t.apiCalls + 1, Usage(prompt, reply))
  }

  function CountEvent(t: Totals, e: LogEvent): Totals {
    if e.Token? then CountUsage(t, e.usage) else t
  }

  lemma {:induction false} CountFirst(events: seq<LogEvent>, lo: nat, hi: nat)
    requires lo < hi <= |events|
    ensures TotalsOf(events, lo, hi) == CountEvent(TotalsOf(events, lo + 1, hi), events[lo])
  {
    forall c: Counter {
      SumFirst(events, lo, hi, c);
    }
  }

  // Position of the last molt boundary before `n`, -1 when there is none.
  function LastBoundary(events: seq<LogEvent>, n: nat): (k: int)
    requires n <= |events|
    ensures -1 <= k < n
    ensures k >= 0 ==> events[k].Boundary?
    ensures forall j :: k < j < n ==> !events[j].Boundary?
  {
    if n == 0 then -1 else if events[n - 1].Boundary? then n - 1 else LastBoundary(events, n - 1)
  }

  datatype Generation = Generation(totals: Totals, startedAt: Option<int>, source: string)

  function Source(initiator: Option<string>): string {
    if initiator.None? || initiator.value == "" then "agent" else initiator.value
  }

  // The molt generation that is current after `n` events: the totals of what
  // was logged behind the last boundary, and what that boundary says.
  function GenerationAt(events: seq<LogEvent>, n: nat): Generation
    requires n <= |events|
  {
    var k := LastBoundary(events, n);
    if k < 0 then Generation(TotalsOf(events, 0, n), None, "boot")
    else Generation(TotalsOf(events, k + 1, n), events[k].ts, Source(events[k].initiator))
  }

  // Without a boundary the agent has run since boot; else the last one says when
  // the generation began and on whose initiative, the agent's own by default.
  lemma {:induction false} GenerationBegins(events: seq<LogEvent>, k: nat)
    ensures NoBoundary(events) ==> GenerationOf(events).startedAt == None && GenerationOf(events).source == "boot"
    ensures k < |events| && events[k].Boundary? && (forall j :: k < j < |events| ==> !events[j].Boundary?) ==>
              var g := GenerationOf(events);
              && g.startedAt == events[k].ts
              && (match events[k].initiator
                  case None => g.source == "agent"
                  case Some(name) => g.source == if name == "" then "agent" else name)
  {
  }

  function GenerationOf(events: seq<LogEvent>): Generation {
    GenerationAt(events, |events|)
  }

  // The same meaning, one event at a time: start over at every boundary.
  function Step(g: Generation, e: LogEvent): Generation {
    match e
    case Boundary(ts, initiator) => Generation(Zero(), ts, Source(initiator))
    case Token(usage) => g.(totals := CountUsage(g.totals, usage))
    case _ => g
  }

  lemma {:induction false} GenerationStep(events: seq<LogEvent>, n: nat)
    requires n < |events|
    ensures GenerationAt(events, n + 1) == Step(GenerationAt(events, n), events[n])
  {
  }

  lemma {:induction false} GenerationSame(a: seq<LogEvent>, b: seq<LogEvent>, n: nat)
    requires n <= |a| && n <= |b| && forall i :: 0 <= i < n ==> a[i] == b[i]
    ensures GenerationAt(a, n) == GenerationAt(b, n)
  {
    var k := LastBoundary(a, n);
    assert LastBoundary(b, n) == k;
    TotalsSame(a, k + 1, n, b, k + 1, n);
  }

  lemma {:induction false} GenerationAppend(events: seq<LogEvent>, e: LogEvent)
    ensures GenerationOf(events + [e]) == Step(GenerationOf(events), e)
  {
    GenerationStep(events + [e], |events|);
    GenerationSame(events + [e], events, |events|);
  }

  ghost predicate NoBoundary(events: seq<LogEvent>) {
    forall i :: 0 <= i < |events| ==> !events[i].Boundary?
  }

  // Only the end of a log matters, from its last boundary on.
  lemma {:induction false} GenerationOfSuffix(all: seq<LogEvent>, tail: seq<LogEvent>, i: nat)
    requires Suffix(tail, all) && i < |tail|
    requires tail[i].Boundary? && forall j :: i < j < |tail| ==> !tail[j].Boundary?
    ensures GenerationOf(all)
            == Generation(TotalsOf(tail, i + 1, |tail|), tail[i].ts, Source(tail[i].initiator))
  {
    var d := |all| - |tail|;
    assert forall j :: d <= j < |all| ==> all[j] == tail[j - d];
    assert all[d + i] == tail[i];
    assert LastBoundary(all, |all|) == d + i;
    TotalsSame(all, d + i + 1, |all|, tail, i + 1, |tail|);
  }

  // The events that matter to a session.
  predicate IsRelevant(e: LogEvent) {
    e.Boundary? || e.Token?
  }

  function Relevant(events: seq<LogEvent>): seq<LogEvent> {
    if events == [] then []
    else Relevant(events[..|events| - 1]) + (if IsRelevant(events[|events| - 1]) then [events[|events| - 1]] else [])
  }

  lemma {:induction false} RelevantConcat(a: seq<LogEvent>, b: seq<LogEvent>)
    ensures Relevant(a + b) == Relevant(a) + Relevant(b)
    decreases |b|
  {
    if b == [] {
      assert a + b == a;
    } else {
      assert (a + b)[..|a + b| - 1] == a + b[..|b| - 1];
      RelevantConcat(a, b[..|b| - 1]);
    }
  }

  lemma {:induction false} GenerationOfRelevant(events: seq<LogEvent>)
    ensures GenerationOf(Relevant(events)) == GenerationOf(events)
  {
    if events != [] {
      var init, e := events[..|events| - 1], events[|events| - 1];
      GenerationOfRelevant(init);
      assert events == init + [e];
      GenerationAppend(init, e);
      if IsRelevant(e) {
        GenerationAppend(Relevant(init), e);
      } else {
        assert Relevant(events) == Relevant(init);
      }
    }
  }

  // Blank lines count for nothing, whatever the decoder would make of them.
  lemma {:induction false} BlankLinesCountNothing(parse: EventParser, lines: seq<Line>)
    ensures GenerationOf(Events(parse, lines)) == GenerationOf(Events(parse, NonEmpty(lines)))
  {
    RelevantNonEmpty(parse, lines);
    GenerationOfRelevant(Events(parse, lines));
    GenerationOfRelevant(Events(parse, NonEmpty(lines)));
  }

  lemma {:induction false} RelevantNonEmpty(parse: EventParser, lines: seq<Line>)
    ensures Relevant(Events(parse, lines)) == Relevant(Events(parse, NonEmpty(lines)))
  {
    if lines != [] {
      RelevantNonEmpty(parse, lines[1..]);
      assert lines == [lines[0]] + lines[1..];
      RelevantFirst(parse, lines[0], lines[1..]);
      RelevantFirst(parse, lines[0], NonEmpty(lines[1..]));
    }
  }

  lemma {:induction false} RelevantFirst(parse: EventParser, line: Line, rest: seq<Line>)
    ensures var e := EventOf(parse, line);
            Relevant(Events(parse, [line] + rest)) ==
            (if IsRelevant(e) then [e] else []) + Relevant(Events(parse, rest))
  {
    var e := EventOf(parse, line);
    assert Events(parse, [line] + rest) == [e] + Events(parse, rest);
    RelevantConcat([e], Events(parse, rest));
    assert [e][..0] == [];
  }

  // ----- reading the tail -----

  // Up to `maxBytes` bytes from the end, cut by `splitlines`, without the
  // possibly truncated first line unless the read reached byte 0.
  function TailLines(file: seq<byte>, maxBytes: int): seq<Line> {
    var lines := LinesBy(Wide, file[WindowStart(|file|, maxBytes)..]);
    if |file| <= maxBytes then lines else Rest(lines)
  }

  lemma {:induction false} TailIsSuffix(file: seq<byte>, maxBytes: int)
    ensures Suffix(TailLines(file, maxBytes), LinesBy(Wide, file))
    ensures |file| <= maxBytes ==> TailLines(file, maxBytes) == LinesBy(Wide, file)
  {
    var start := WindowStart(|file|, maxBytes);
    if |file| <= maxBytes {
      assert file[start..] == file;
    } else {
      TailLinesAreLines(Wide, file, start);
      var all := LinesBy(Wide, file);
      assert Suffix(Rest(all), all);
      SuffixTransitive(TailLines(file, maxBytes), Rest(all), all);
    }
  }

  // The one-shot tail read and the chunked reader see the same lines.
  lemma {:induction false} TailReadIsReverseRead(file: seq<byte>, maxBytes: int, decode: ReverseReader.Decoder)
    requires OnlyNewlines(file)
    ensures ReverseReader.NewestFirst(decode, TailLines(file, maxBytes))
            == ReverseReader.NewestFirst(decode, WindowLines(file, maxBytes))
  {
    var start := WindowStart(|file|, maxBytes);
    var window := file[start..];
    OnlyNewlinesTail(file, start);
    CutsDiffer(Wide, window);
    var lines := LinesBy(Wide, window);
    if |file| <= maxBytes {
      ReverseReader.NewestFirstConcat(decode, lines, Ending(window));
    } else if lines == [] {
      assert WindowLines(file, maxBytes) == [] || WindowLines(file, maxBytes) == [[]];
    } else {
      assert Split(window)[1..] == lines[1..] + Ending(window);
      ReverseReader.NewestFirstConcat(decode, lines[1..], Ending(window));
    }
  }

  // ----- tiers 2 and 3 -----

  datatype Tier = Sqlite | ReverseScan | FullScan | NoSource

  datatype Session = Session(moltCount: int, generation: Generation, tier: Tier)

  // Tier 2: newest to oldest over the bounded tail, up to the first boundary.
  method RebuildViaReverseScan(parse: EventParser, file: seq<byte>, moltCount: int, maxBytes: int)
    returns (r: Option<Session>)
    ensures var tail := Events(parse, TailLines(file, maxBytes));
            r.None? <==> |file| > maxBytes && NoBoundary(tail)
    ensures r.Some? ==> r.value == Session(moltCount, GenerationOf(Events(parse, LinesBy(Wide, file))), ReverseScan)
  {
    var lines, hitStart := TailLines(file, maxBytes), |file| <= maxBytes;
    ghost var all := Events(parse, LinesBy(Wide, file));
    TailEvents(parse, file, maxBytes);
    var totals, boundary, at := ScanBack(parse, lines);
    ghost var tail := Events(parse, lines);
    if boundary.None? && !hitStart {
      return None;
    }
    if boundary.None? {
      assert LastBoundary(all, |all|) == -1;
      return Some(Session(moltCount, Generation(totals, None, "boot"), ReverseScan));
    }
    GenerationOfSuffix(all, tail, at);
    var e := boundary.value;
    return Some(Session(moltCount, Generation(totals, e.ts, Source(e.initiator)), ReverseScan));
  }

  // The loop of tier 2: token sums from the end to the newest boundary.
  method ScanBack(parse: EventParser, lines: seq<Line>)
    returns (totals: Totals, boundary: Option<LogEvent>, ghost at: nat)
    ensures var events := Events(parse, lines);
            match boundary
            case Some(e) =>
              at < |events| && e == events[at] && e.Boundary? &&
              totals == TotalsOf(events, at + 1, |events|) && forall j :: at < j < |events| ==> !events[j].Boundary?
            case None => NoBoundary(events) && totals == TotalsOf(events, 0, |events|)
  {
    ghost var events := Events(parse, lines);
    totals, boundary, at := Zero(), None, 0;
    var i := |lines|;
    while i > 0
      invariant 0 <= i <= |lines|
      invariant forall j :: i <= j < |events| ==> !events[j].Boundary?
      invariant totals == TotalsOf(events, i, |events|)
    {
      var e := EventOf(parse, lines[i - 1]);
      assert e == events[i - 1];
      if e.Boundary? {
        boundary, at := Some(e), i - 1;
        return;
      }
      CountFirst(events, i - 1, |events|);
      if e.Token? {
        totals := CountUsage(totals, e.usage);
      }
      i := i - 1;
    }
  }

  lemma {:induction false} TailEvents(parse: EventParser, file: seq<byte>, maxBytes: int)
    ensures Suffix(Events(parse, TailLines(file, maxBytes)), Events(parse, LinesBy(Wide, file)))
    ensures |file| <= maxBytes ==> Events(parse, TailLines(file, maxBytes)) == Events(parse, LinesBy(Wide, file))
  {
    TailIsSuffix(file, maxBytes);
    EventsOfSuffix(parse, TailLines(file, maxBytes), LinesBy(Wide, file));
  }

  lemma {:induction false} EventsOfSuffix(parse: EventParser, tail: seq<Line>, lines: seq<Line>)
    requires Suffix(tail, lines)
    ensures Suffix(Events(parse, tail), Events(parse, lines))
  {
  }

  // Tier 3: the whole file forward, resetting at every boundary.
  method RebuildViaFullScan(parse: EventParser, file: seq<byte>, moltCount: int) returns (r: Session)
    ensures r == Session(moltCount, GenerationOf(Events(parse, LinesBy(Universal, file))), FullScan)
  {
    var g := ScanForward(parse, LinesBy(Universal, file));
    r := Session(moltCount, g, FullScan);
  }

  method ScanForward(parse: EventParser, lines: seq<Line>) returns (g: Generation)
    ensures g == GenerationOf(Events(parse, lines))
  {
    ghost var events := Events(parse, lines);
    var totals, startedAt, source := Zero(), None, "boot";
    for i := 0 to |lines|
      invariant Generation(totals, startedAt, source) == GenerationAt(events, i)
    {
      var e := EventOf(parse, lines[i]);
      GenerationStep(events, i);
      if e.Boundary? {
        totals, startedAt, source := Zero(), e.ts, Source(e.initiator);
      } else if e.Token? {
        totals := CountUsage(totals, e.usage);
      }
    }
    g := Generation(totals, startedAt, source);
  }

  // ----- tier 1: the event index -----

  // One indexed event; the index holds the log's events with a timestamp each.
  datatype Row = Row(ts: int, event: LogEvent)

  // "ORDER BY ts DESC LIMIT 1" over the boundary rows: any row of maximal ts.
  ghost predicate IsLatestBoundary(rows: seq<Row>, latest: Option<Row>) {
    match latest
    case None => forall i :: 0 <= i < |rows| ==> !rows[i].event.Boundary?
    case Some(b) => b in rows && b.event.Boundary? &&
                    forall i :: 0 <= i < |rows| && rows[i].event.Boundary? ==> rows[i].ts <= b.ts
  }

  function BoundaryTs(latest: Option<Row>): int {
    if latest.None? then 0 else latest.value.ts
  }

  // The aggregate query over rows[lo..hi]: token rows at or after a timestamp.
  function SumSince(rows: seq<Row>, lo: nat, hi: nat, since: int, c: Counter): int
    requires lo <= hi <= |rows|
  {
    if lo == hi then 0
    else SumSince(rows, lo, hi - 1, since, c)
         + if rows[hi - 1].ts >= since then TokensOf(rows[hi - 1].event, c) else 0
  }

  function TotalsSince(rows: seq<Row>, since: int): Totals {
    var sum := (c: Counter) => SumSince(rows, 0, |rows|, since, c);
    Totals(sum(ApiCalls), Usage(Prompt(sum(Input), sum(Cached)), Reply(sum(Output), sum(Thinking))))
  }

  function RebuildViaSqlite(rows: seq<Row>, latest: Option<Row>, moltCount: int): Session {
    var startedAt := if BoundaryTs(latest) == 0 then None else Some(BoundaryTs(latest));
    var source := match latest
                  case Some(Row(_, Boundary(_, initiator))) => Source(initiator)
                  case _ => "boot";
    Session(moltCount, Generation(TotalsSince(rows, BoundaryTs(latest)), startedAt, source), Sqlite)
  }

  function RowEvents(rows: seq<Row>): (r: seq<LogEvent>)
    ensures |r| == |rows|
  {
    seq(|rows|, i requires 0 <= i < |rows| => rows[i].event)
  }

  // Timestamps are not negative and do not decrease along the log.
  ghost predicate InTimeOrder(rows: seq<Row>) {
    && (forall i :: 0 <= i < |rows| ==> rows[i].ts >= 0)
    && (forall i, j :: 0 <= i < j < |rows| ==> rows[i].ts <= rows[j].ts)
  }

  // Some token event was logged before the last boundary, at its timestamp.
  ghost predicate TokenTiedWithBoundary(rows: seq<Row>) {
    var k := LastBoundary(RowEvents(rows), |rows|);
    exists i :: 0 <= i < k && rows[i].event.Token? && rows[i].ts == rows[k].ts
  }

  lemma {:induction false} SumSinceSplit(rows: seq<Row>, k: nat, hi: nat, since: int, c: Counter)
    requires k <= hi <= |rows|
    ensures SumSince(rows, 0, hi, since, c) == SumSince(rows, 0, k, since, c) + SumSince(rows, k, hi, since, c)
    decreases hi
  {
    if k < hi {
      SumSinceSplit(rows, k, hi - 1, since, c);
    }
  }

  // Where every row is late enough, the query counts what the scan counts.
  lemma {:induction false} SumSinceAll(rows: seq<Row>, lo: nat, hi: nat, since: int, c: Counter)
    requires lo <= hi <= |rows| && forall i :: lo <= i < hi ==> rows[i].ts >= since
    ensures SumSince(rows, lo, hi, since, c) == Sum(RowEvents(rows), lo, hi, c)
    decreases hi
  {
    if lo < hi {
      SumSinceAll(rows, lo, hi - 1, since, c);
    }
  }

  // The query counts nothing among the first k rows iff no token is late enough.
  lemma {:induction false} EarlyTokens(rows: seq<Row>, k: nat, since: int)
    requires k <= |rows|
    ensures SumSince(rows, 0, k, since, ApiCalls) >= 0
    ensures SumSince(rows, 0, k, since, ApiCalls) == 0 <==>
            forall i :: 0 <= i < k && rows[i].event.Token? ==> rows[i].ts < since
    ensures SumSince(rows, 0, k, since, ApiCalls) == 0 ==> forall c: Counter :: SumSince(rows, 0, k, since, c) == 0
  {
    if k > 0 {
      EarlyTokens(rows, k - 1, since);
    }
  }

  // On a log in time order, the two indexed queries give the totals of the
  // positional scan exactly when no earlier token ties with the last boundary.
  lemma {:induction false} IndexedTotals(rows: seq<Row>, latest: Option<Row>, moltCount: int)
    requires InTimeOrder(rows) && IsLatestBoundary(rows, latest)
    ensures RebuildViaSqlite(rows, latest, moltCount).generation.totals == GenerationOf(RowEvents(rows)).totals
            <==> !TokenTiedWithBoundary(rows)
  {
    var events, n := RowEvents(rows), |rows|;
    var k := LastBoundary(events, n);
    if latest.None? {
      assert k == -1;
      forall c: Counter {
        SumSinceAll(rows, 0, n, 0, c);
      }
    } else {
      LatestIsLast(rows, latest.value);
      var since := latest.value.ts;
      forall c: Counter
        ensures SumSince(rows, 0, n, since, c) == SumSince(rows, 0, k, since, c) + Sum(events, k + 1, n, c)
      {
        SumSinceSplit(rows, k, n, since, c);
        SumSinceAll(rows, k, n, since, c);
        SumFirst(events, k, n, c);
      }
      TiedTokens(rows, k);
    }
  }

  // The index has each boundary under the time that it states itself.
  ghost predicate StampedRows(rows: seq<Row>) {
    forall i :: 0 <= i < |rows| && rows[i].event.Boundary? ==> rows[i].event.ts == Some(rows[i].ts)
  }

  // No two boundaries share a timestamp.
  ghost predicate DistinctBoundaries(rows: seq<Row>) {
    forall i, j :: 0 <= i < j < |rows| && rows[i].event.Boundary? && rows[j].event.Boundary? ==>
      rows[i].ts != rows[j].ts
  }

  // The indexed boundary is the positional one: its time, unless that is zero, and
  // its initiator.
  lemma {:induction false} IndexedBoundary(rows: seq<Row>, latest: Option<Row>, moltCount: int)
    requires InTimeOrder(rows) && IsLatestBoundary(rows, latest) && StampedRows(rows) && DistinctBoundaries(rows)
    ensures var s, g := RebuildViaSqlite(rows, latest, moltCount), GenerationOf(RowEvents(rows));
            && s.moltCount == moltCount && s.tier == Sqlite
            && s.generation.source == g.source
            && (s.generation.startedAt == g.startedAt <==> g.startedAt != Some(0))
  {
    var events := RowEvents(rows);
    var k := LastBoundary(events, |rows|);
    if latest.None? {
      assert forall i :: 0 <= i < |rows| ==> events[i] == rows[i].event;
      assert k == -1;
    } else {
      LatestIsLast(rows, latest.value);
      var b :| 0 <= b < |rows| && rows[b] == latest.value;
      assert events[k] == rows[k].event && events[b] == rows[b].event;
      assert b == k;
    }
  }

  lemma {:induction false} LatestIsLast(rows: seq<Row>, latest: Row)
    requires InTimeOrder(rows) && IsLatestBoundary(rows, Some(latest))
    ensures var k := LastBoundary(RowEvents(rows), |rows|); k >= 0 && rows[k].ts == latest.ts
  {
    var b :| 0 <= b < |rows| && rows[b] == latest;
    assert RowEvents(rows)[b].Boundary?;
    var k := LastBoundary(RowEvents(rows), |rows|);
    assert RowEvents(rows)[k] == rows[k].event;
  }

  lemma {:induction false} TiedTokens(rows: seq<Row>, k: nat)
    requires InTimeOrder(rows) && k == LastBoundary(RowEvents(rows), |rows|)
    ensures if TokenTiedWithBoundary(rows) then SumSince(rows, 0, k, rows[k].ts, ApiCalls) > 0
            else forall c: Counter :: SumSince(rows, 0, k, rows[k].ts, c) == 0
  {
    EarlyTokens(rows, k, rows[k].ts);
    assert forall i :: 0 <= i < k ==> rows[i].ts <= rows[k].ts;
  }

  // ----- the fallback chain -----

  const DEFAULT_MAX_SCAN_BYTES := 8 * 1024 * 1024

  // No boundary in a tail that does not reach the start of the file.
  ghost predicate Deferred(parse: EventParser, file: seq<byte>) {
    |file| > 8_388_608 && NoBoundary(Events(parse, TailLines(file, 8_388_608)))
  }

  function GenerationBy(c: Convention, parse: EventParser, file: seq<byte>): Generation {
    GenerationOf(Events(parse, LinesBy(c, file)))
  }

  // `index` is None when there is no query function or a query fails.
  method Rebuild(parse: EventParser, index: Option<(seq<Row>, Option<Row>)>, file: Option<seq<byte>>,
                 moltCount: int, allowFullScan: bool)
    returns (r: Session)
    ensures r.moltCount == moltCount && (r.tier == Sqlite <==> index.Some?)
    ensures index.Some? ==> r == RebuildViaSqlite(index.value.0, index.value.1, moltCount)
    ensures index.None? && file.Some? && !Deferred(parse, file.value) ==>
              r == Session(moltCount, GenerationBy(Wide, parse, file.value), ReverseScan)
    ensures index.None? && file.Some? && Deferred(parse, file.value) && allowFullScan ==>
              r == Session(moltCount, GenerationBy(Universal, parse, file.value), FullScan)
    ensures index.None? && (file.None? || (Deferred(parse, file.value) && !allowFullScan)) ==>
              r == Session(moltCount, Generation(Zero(), None, "boot"), NoSource)
  {
    if index.Some? {
      return RebuildViaSqlite(index.value.0, index.value.1, moltCount);
    }
    if file.Some? {
      var tail := RebuildViaReverseScan(parse, file.value, moltCount, DEFAULT_MAX_SCAN_BYTES);
      if tail.Some? {
        return tail.value;
      }
      if allowFullScan {
        r := RebuildViaFullScan(parse, file.value, moltCount);
        return;
      }
    }
    return Session(moltCount, Generation(Zero(), None, "boot"), NoSource);
  }

  // API calls count the token events.
  lemma {:induction false} CallsAreTokens(events: seq<LogEvent>, n: nat)
    requires n <= |events|
    ensures Sum(events, 0, n, ApiCalls) >= 0
    ensures Sum(events, 0, n, ApiCalls) == 0 <==> forall i :: 0 <= i < n ==> !events[i].Token?
  {
    if n > 0 {
      CallsAreTokens(events, n - 1);
    }
  }

  // A decoder that takes exactly the lines holding a wide boundary for token records.
  ghost function Detector(): EventParser {
    line => if HasWideBreak(line) then Token(Usage(Prompt(1, 0), Reply(1, 0))) else Malformed
  }

  lemma {:induction false} DetectorTotals(lines: seq<Line>)
    ensures var g := GenerationOf(Events(Detector(), lines));
            g.totals.apiCalls == 0 <==> forall i :: 0 <= i < |lines| ==> !HasWideBreak(lines[i])
  {
    var events := Events(Detector(), lines);
    assert LastBoundary(events, |events|) == -1;
    CallsAreTokens(events, |events|);
    forall i | 0 <= i < |lines|
      ensures events[i].Token? <==> HasWideBreak(lines[i])
    {
      assert events[i] == EventOf(Detector(), lines[i]);
    }
  }

  // The two scans agree on a file, whatever its lines decode to, exactly if the
  // file holds no boundary that only `splitlines` knows.
  lemma {:induction false} TiersAgree(file: seq<byte>)
    ensures (forall parse: EventParser :: GenerationBy(Wide, parse, file) == GenerationBy(Universal, parse, file))
            <==> !HasWideBreak(file)
  {
    if HasWideBreak(file) {
      var i :| 0 <= i < |file| && WideBreakAt(file, i);
      var k := UniversalLineHolds(file, i);
      WideLinesHoldNone(file);
      DetectorTotals(LinesBy(Universal, file));
      DetectorTotals(LinesBy(Wide, file));
      assert GenerationBy(Wide, Detector(), file) != GenerationBy(Universal, Detector(), file);
    } else {
      SameCuts(file);
    }
  }

  // Then the chain without an index gives what the full scan gives, on every file.
  lemma {:induction false} ChainIsFullScan(parse: EventParser, file: seq<byte>)
    requires !HasWideBreak(file)
    ensures (if Deferred(parse, file) then GenerationBy(Universal, parse, file) else GenerationBy(Wide, parse, file))
            == GenerationBy(Universal, parse, file)
  {
    TiersAgree(file);
  }

  // The record {"type":"llm_response","agent_name":"a<U+2028>b"} and a newline.
  const RECORD_HEAD: seq<byte> := [
    123, 34, 116, 121, 112, 101, 34, 58, 34, 108, 108, 109, 95, 114, 101, 115, 112, 111, 110, 115, 101, 34, 44,
    34, 97, 103, 101, 110, 116, 95, 110, 97, 109, 101, 34, 58, 34, 97]
  const LINE_SEPARATOR: seq<byte> := [0xE2, 0x80, 0xA8]
  const RECORD_TAIL: seq<byte> := [98, 34, 125]

  // One line to the full scan, two unusable pieces to the tail scan: a decoder
  // that reads the record and rejects its pieces counts one call or none.
  lemma {:induction false} TiersCanDiffer(parse: EventParser)
    requires parse(RECORD_HEAD + LINE_SEPARATOR + RECORD_TAIL).Token?
    requires parse(RECORD_HEAD) == Malformed && parse(RECORD_TAIL) == Malformed
    ensures var file := RECORD_HEAD + LINE_SEPARATOR + RECORD_TAIL + [NEWLINE];
            && GenerationBy(Universal, parse, file).totals.apiCalls == 1
            && GenerationBy(Wide, parse, file).totals.apiCalls == 0
  {
    var record := RECORD_HEAD + LINE_SEPARATOR + RECORD_TAIL;
    CutRecord();
    GenerationStep(Events(parse, [record]), 0);
    GenerationStep(Events(parse, [RECORD_HEAD, RECORD_TAIL]), 0);
    GenerationStep(Events(parse, [RECORD_HEAD, RECORD_TAIL]), 1);
  }

  lemma {:induction false} CutRecord()
    ensures var record := RECORD_HEAD + LINE_SEPARATOR + RECORD_TAIL;
            && LinesBy(Universal, record + [NEWLINE]) == [record]
            && LinesBy(Wide, record + [NEWLINE]) == [RECORD_HEAD, RECORD_TAIL]
  {
    var record := RECORD_HEAD + LINE_SEPARATOR + RECORD_TAIL;
    assert Printable(RECORD_HEAD) && Printable(RECORD_TAIL);
    forall j | 0 <= j < |record|
      ensures BreakLen(Universal, (record + [NEWLINE] + [])[j..]) == 0
    {
      assert (record + [NEWLINE] + [])[j..][0] == record[j];
    }
    CutAt(Universal, record, [NEWLINE], []);
    PrintableCut(RECORD_HEAD, LINE_SEPARATOR, RECORD_TAIL + [NEWLINE]);
    PrintableCut(RECORD_TAIL, [NEWLINE], []);
    assert record + [NEWLINE] + [] == record + [NEWLINE];
    assert RECORD_TAIL + [NEWLINE] + [] == RECORD_TAIL + [NEWLINE];
    assert RECORD_HEAD + LINE_SEPARATOR + (RECORD_TAIL + [NEWLINE]) == record + [NEWLINE];
  }

  predicate Printable(s: seq<byte>) {
    forall i :: 0 <= i < |s| ==> 32 <= s[i] < 127
  }

  lemma {:induction false} PrintableCut(head: seq<byte>, mark: seq<byte>, tail: seq<byte>)
    requires Printable(head) && mark != [] && BreakLen(Wide, mark + tail) == |mark|
    ensures LinesBy(Wide, head + mark + tail) == [head] + LinesBy(Wide, tail)
  {
    forall j | 0 <= j < |head|
      ensures BreakLen(Wide, (head + mark + tail)[j..]) == 0
    {
      assert (head + mark + tail)[j..][0] == head[j];
    }
    CutAt(Wide, head, mark, tail);
  }

  // A token round and a molt logged in the same tick: the index counts the round
  // into the new generation, the scan does not.
  lemma {:induction false} TieOvercounts(ts: int, usage: Usage, moltCount: int)
    requires ts >= 0
    ensures var rows := [Row(ts, Token(usage)), Row(ts, Boundary(Some(ts), None))];
            && InTimeOrder(rows) && IsLatestBoundary(rows, Some(rows[1])) && TokenTiedWithBoundary(rows)
            && RebuildViaSqlite(rows, Some(rows[1]), moltCount).generation.totals !=
               GenerationOf(RowEvents(rows)).totals
  {
    var rows := [Row(ts, Token(usage)), Row(ts, Boundary(Some(ts), None))];
    assert rows[1] in rows;
    assert RowEvents(rows)[1].Boundary?;
    assert rows[0].event.Token? && rows[0].ts == rows[LastBoundary(RowEvents(rows), 2)].ts;
    IndexedTotals(rows, Some(rows[1]), moltCount);
  }
}
