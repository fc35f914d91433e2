/** The live token counters of a session manager, next to the event log they
    must always agree with (src/lingtai_kernel/session.py). */
module TokenCounters {
  import opened Wrappers
  import opened LogLines
  import opened AgentSession

  // How a record is written.
  type Encoder = LogEvent -> Line

  // Read back by either line convention, a record acts as the event written.
  ghost predicate ReadsBack(parse: EventParser, encode: Encoder) {
    forall c: Convention, e: LogEvent ::
      Relevant(Events(parse, LinesBy(c, encode(e) + [NEWLINE]))) == Relevant([e])
  }

  // A log file: whole records, holding the events logged.
  ghost predicate Records(parse: EventParser, file: seq<byte>, log: seq<LogEvent>) {
    && (file == [] || file[|file| - 1] == NEWLINE)
    && forall c: Convention :: Relevant(Events(parse, LinesBy(c, file))) == Relevant(log)
  }

  lemma {:induction false} AppendRecord(parse: EventParser, encode: Encoder, file: seq<byte>, log: seq<LogEvent>,
          e: LogEvent)
    requires ReadsBack(parse, encode) && Records(parse, file, log)
    ensures Records(parse, file + (encode(e) + [NEWLINE]), log + [e])
  {
    var record := encode(e) + [NEWLINE];
    RelevantConcat(log, [e]);
    forall c: Convention
      ensures Relevant(Events(parse, LinesBy(c, file + record))) == Relevant(log + [e])
    {
      LinesConcat(c, file, record);
      var old', new' := LinesBy(c, file), LinesBy(c, record);
      assert Events(parse, old' + new') == Events(parse, old') + Events(parse, new');
      RelevantConcat(Events(parse, old'), Events(parse, new'));
    }
  }

  // Whichever way a log file is read, it gives the generation of the log.
  lemma {:induction false} RecordsGeneration(c: Convention, parse: EventParser, file: seq<byte>, log: seq<LogEvent>)
    requires Records(parse, file, log)
    ensures GenerationBy(c, parse, file) == GenerationOf(log)
  {
    GenerationOfRelevant(Events(parse, LinesBy(c, file)));
    GenerationOfRelevant(log);
  }

  // Provider usage, or the local estimate when the provider reports nothing.
  function EffectiveUsage(reported: Usage, estimatedInput: int, estimatedOutput: int): Usage {
    if reported.prompt.input == 0 && reported.reply.output == 0 then
      Usage(Prompt(estimatedInput, 0), Reply(estimatedOutput, 0))
    else
      reported
  }

  function Max(a: int, b: int): int {
    if a < b then b else a
  }

  // The index holds the log's events in time order, and `latest` is what its first query returns.
  ghost predicate Mirrors(rows: seq<Row>, latest: Option<Row>, log: seq<LogEvent>) {
    RowEvents(rows) == log && InTimeOrder(rows) && IsLatestBoundary(rows, latest)
  }

  class SessionManager {
    const parse: EventParser
    const encode: Encoder
    var file: Option<seq<byte>>
    var totalInput: int
    var totalOutput: int
    var totalThinking: int
    var totalCached: int
    var apiCalls: int
    var baselineInput: int
    var baselineCached: int
    var baselineApiCalls: int
    ghost var log: seq<LogEvent>
    ghost var older: seq<LogEvent>    // the log up to the last restart or molt
    ghost var recent: seq<LogEvent>   // the log since then

    ghost function Live(): Totals
      reads this
    {
      Totals(apiCalls, Usage(Prompt(totalInput, totalCached), Reply(totalOutput, totalThinking)))
    }

    // The durable part: what is on disk records what was logged.
    ghost predicate LogValid()
      reads this
    {
      && ReadsBack(parse, encode)
      && match file
         case None => log == []
         case Some(bytes) => Records(parse, bytes, log)
    }

    ghost predicate BaselineValid()
      reads this
    {
      && log == older + recent
      && baselineApiCalls + Sum(recent, 0, |recent|, ApiCalls) == apiCalls
      && baselineInput + Sum(recent, 0, |recent|, Input) == totalInput
      && baselineCached + Sum(recent, 0, |recent|, Cached) == totalCached
    }

    ghost predicate Valid()
      reads this
    {
      LogValid() && Live() == GenerationOf(log).totals && BaselineValid()
    }

    constructor (parse: EventParser, encode: Encoder)
      requires ReadsBack(parse, encode)
      ensures Valid() && log == [] && file == None
    {
      this.parse, this.encode, file := parse, encode, None;
      log, older, recent := [], [], [];
      totalInput, totalOutput, totalThinking, totalCached, apiCalls := 0, 0, 0, 0, 0;
      baselineInput, baselineCached, baselineApiCalls := 0, 0, 0;
    }

    method Log(e: LogEvent)
      requires LogValid()
      modifies this`file, this`log, this`recent
      ensures LogValid() && log == old(log) + [e] && recent == old(recent) + [e] && file.Some?
      ensures GenerationOf(log) == Step(GenerationOf(old(log)), e)
    {
      var bytes := if file.None? then [] else file.value;
      AppendRecord(parse, encode, bytes, log, e);
      GenerationAppend(log, e);
      file := Some(bytes + (encode(e) + [NEWLINE]));
      log, recent := log + [e], recent + [e];
    }

    // The shared accumulator (src/lingtai_kernel/llm_utils.py).
    method TrackLlmUsage(usage: Usage)
      modifies this`totalInput, this`totalOutput, this`totalThinking, this`totalCached, this`apiCalls
      ensures Live() == CountUsage(old(Live()), usage)
    {
      totalInput := totalInput + usage.prompt.input;
      totalOutput := totalOutput + usage.reply.output;
      totalThinking := totalThinking + usage.reply.thinking;
      totalCached := totalCached + usage.prompt.cached;
      apiCalls := apiCalls + 1;
    }

    method TrackUsage(reported: Usage, estimatedInput: int, estimatedOutput: int)
      requires Valid()
      modifies this
      ensures Valid()
      ensures log == old(log) + [Token(EffectiveUsage(reported, estimatedInput, estimatedOutput))]
      ensures recent == old(recent) + [Token(EffectiveUsage(reported, estimatedInput, estimatedOutput))]
      ensures apiCalls == old(apiCalls) + 1
      ensures var silent := reported.prompt.input == 0 && reported.reply.output == 0;
              && totalInput == old(totalInput) + (if silent then estimatedInput else reported.prompt.input)
              && totalOutput == old(totalOutput) + (if silent then estimatedOutput else reported.reply.output)
              && totalCached == old(totalCached) + (if silent then 0 else reported.prompt.cached)
              && totalThinking == old(totalThinking) + (if silent then 0 else reported.reply.thinking)
    {
      var usage := EffectiveUsage(reported, estimatedInput, estimatedOutput);
      TrackLlmUsage(usage);
      SumAppend(recent, Token(usage));
      Log(Token(usage));
    }

    // Any event that is neither a provider round nor a molt.
    method LogOther(e: LogEvent)
      requires Valid() && (e.Other? || e.Malformed?)
      modifies this`file, this`log, this`recent
      ensures Valid() && log == old(log) + [e] && recent == old(recent) + [e]
    {
      SumAppend(recent, e);
      Log(e);
    }

    method ResetRuntimeSessionTokenUsage()
      modifies this`baselineInput, this`baselineCached, this`baselineApiCalls, this`older, this`recent
      ensures BaselineValid() && recent == []
    {
      baselineInput, baselineCached, baselineApiCalls := totalInput, totalCached, apiCalls;
      older, recent := log, [];
    }

    // First half of a molt; the log does not know of it yet.
    method ResetSessionTokenUsage()
      modifies this
      ensures Live() == Zero() && BaselineValid() && recent == []
      ensures file == old(file) && log == old(log)
    {
      totalInput, totalOutput, totalThinking, totalCached, apiCalls := 0, 0, 0, 0, 0;
      ResetRuntimeSessionTokenUsage();
    }

    method Molt(ts: Option<int>, initiator: Option<string>)
      requires Valid()
      modifies this
      ensures Valid() && Live() == Zero()
      ensures log == old(log) + [Boundary(ts, initiator)] && recent == [Boundary(ts, initiator)]
    {
      ResetSessionTokenUsage();
      var boundary := Boundary(ts, initiator);
      SumAppend(recent, boundary);
      Log(boundary);
    }

    method RestoreTokenState(t: Totals)
      modifies this
      ensures Live() == t && BaselineValid() && recent == []
      ensures file == old(file) && log == old(log)
    {
      totalInput, totalOutput, totalThinking := t.sum.prompt.input, t.sum.reply.output, t.sum.reply.thinking;
      totalCached, apiCalls := t.sum.prompt.cached, t.apiCalls;
      baselineInput, baselineCached, baselineApiCalls := totalInput, totalCached, apiCalls;
      older, recent := log, [];
    }

    // Start of a process: whatever the counters were (a crash may have hit
    // between a counter update and its log record), they are rebuilt from the
    // event index, else from the log file, else from the lifetime ledger.
    method Restart(index: Option<(seq<Row>, Option<Row>)>, moltCount: int, ledger: Totals)
      requires LogValid() && (index.Some? ==> Mirrors(index.value.0, index.value.1, log))
      modifies this
      ensures LogValid() && file == old(file) && log == old(log)
      ensures Live() == if index.Some? then RebuildViaSqlite(index.value.0, index.value.1, moltCount).generation.totals
                        else if file.Some? then GenerationOf(log).totals else ledger
      ensures Valid() <==> if index.Some? then !TokenTiedWithBoundary(index.value.0) else file.Some? || ledger == Zero()
      ensures recent == []
    {
      if index.Some? {
        IndexedTotals(index.value.0, index.value.1, moltCount);
      } else if file.Some? {
        RecordsGeneration(Wide, parse, file.value, log);
        RecordsGeneration(Universal, parse, file.value, log);
      }
      var session := Rebuild(parse, index, file, moltCount, true);
      if session.tier == NoSource {
        RestoreTokenState(ledger);
      } else {
        RestoreTokenState(session.generation.totals);
      }
    }

    // Deltas since the last restart or molt.
    method RuntimeSessionTokenUsage() returns (calls: int, input: int, cached: int)
      requires Valid()
      ensures calls >= 0 && input >= 0 && cached >= 0
      ensures var sum := Sum(recent, 0, |recent|, ApiCalls); calls == if sum > 0 then sum else 0
      ensures var sum := Sum(recent, 0, |recent|, Input); input == if sum > 0 then sum else 0
      ensures var sum := Sum(recent, 0, |recent|, Cached); cached == if sum > 0 then sum else 0
    {
      calls := Max(0, apiCalls - baselineApiCalls);
      input := Max(0, totalInput - baselineInput);
      cached := Max(0, totalCached - baselineCached);
    }

    // The since-molt half that is injected next to tool results.
    method AgentSessionTokenUsage() returns (calls: int, input: int, cached: int, cacheMiss: int)
      requires Valid()
      ensures calls >= 0 && input >= 0 && cached >= 0 && cacheMiss >= 0
      ensures var t := GenerationOf(log).totals;
              && (calls == t.apiCalls || (calls == 0 && t.apiCalls < 0))
              && (input == t.sum.prompt.input || (input == 0 && t.sum.prompt.input < 0))
              && (cached == t.sum.prompt.cached || (cached == 0 && t.sum.prompt.cached < 0))
              && (cacheMiss == input - cached || (cacheMiss == 0 && input < cached))
    {
      calls, input, cached := Max(0, apiCalls), Max(0, totalInput), Max(0, totalCached);
      cacheMiss := Max(input - cached, 0);
    }
  }

  lemma {:induction false} SumAppend(events: seq<LogEvent>, e: LogEvent)
    ensures forall c: Counter :: Sum(events + [e], 0, |events| + 1, c)
                                 == Sum(events, 0, |events|, c) + TokensOf(e, c)
  {
    forall c: Counter
      ensures Sum(events + [e], 0, |events| + 1, c) == Sum(events, 0, |events|, c) + TokensOf(e, c)
    {
      SumSame(events + [e], 0, |events|, events, 0, |events|, c);
    }
  }

  // ----- restarts that lose the fold -----

  // A round and a molt in the same tick, then a restart that asks the index: the
  // live counters hold the round, the log's generation does not.
  method RestartAfterTie(parse: EventParser, encode: Encoder, usage: Usage, ts: int, moltCount: int, ledger: Totals)
    returns (s: SessionManager)
    requires ReadsBack(parse, encode) && ts >= 0
    requires usage.prompt.input > 0
    ensures s.LogValid() && s.log == [Token(usage), Boundary(Some(ts), None)] && !s.Valid()
  {
    s := new SessionManager(parse, encode);
    s.TrackUsage(usage, 0, 0);
    s.Molt(Some(ts), None);
    var rows := [Row(ts, Token(usage)), Row(ts, Boundary(Some(ts), None))];
    TieOvercounts(ts, usage, moltCount);
    assert RowEvents(rows) == s.log;
    s.Restart(Some((rows, Some(rows[1]))), moltCount, ledger);
  }

  // No index and no log file, but a ledger of an earlier life: the counters start at its totals.
  method RestartFromLedger(parse: EventParser, encode: Encoder, moltCount: int, ledger: Totals)
    returns (s: SessionManager)
    requires ReadsBack(parse, encode) && ledger != Zero()
    ensures s.LogValid() && s.log == [] && s.Live() == ledger && !s.Valid()
  {
    s := new SessionManager(parse, encode);
    s.Restart(None, moltCount, ledger);
  }
}
