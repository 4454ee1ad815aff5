/** The Map phase (agent/tool_summarize_chunk.go): chunks are summarised with bounded
    concurrency, and the result is that of the serial loop. */
module MapPhase {
  import opened GoText
  import opened TokenChunk
  import Markdown

  const DEFAULT_CHUNK_SIZE := 200
  const OVERSIZED_MESSAGE_RUNES := 4000

  function ClampChunkSize(requested: int): (size: nat)
    ensures 1 <= size <= HARD_MESSAGE_BACKSTOP
    ensures 1 <= requested <= HARD_MESSAGE_BACKSTOP ==> size == requested
  {
    if requested <= 0 then DEFAULT_CHUNK_SIZE else if requested > HARD_MESSAGE_BACKSTOP then HARD_MESSAGE_BACKSTOP else requested
  }

  function Oversized(chunk: seq<Msg>): nat {
    if chunk == [] then 0
    else Oversized(chunk[..|chunk| - 1]) + if |chunk[|chunk| - 1].content| > OVERSIZED_MESSAGE_RUNES then 1 else 0
  }

  /** formatChunkForLLM: every message is rendered, none is cut. */
  method FormatChunkForLLM(chunk: seq<Msg>) returns (formatted: string, processed: nat, oversized: nat)
    ensures formatted == Rendered(chunk) && processed == |chunk| && oversized == Oversized(chunk)
  {
    formatted, processed, oversized := "", 0, 0;
    for i := 0 to |chunk|
      invariant formatted == Rendered(chunk[..i]) && processed == i && oversized == Oversized(chunk[..i])
    {
      TakeNext(chunk, i);
      FormatStep(chunk[..i], chunk[i]);
      if |chunk[i].content| > OVERSIZED_MESSAGE_RUNES {
        oversized := oversized + 1;
      }
      formatted := formatted + RenderLine(chunk[i]);
      processed := processed + 1;
    }
    assert chunk[..|chunk|] == chunk;
  }

  lemma {:induction false} FormatStep(done: seq<Msg>, m: Msg)
    ensures Rendered(done + [m]) == Rendered(done) + RenderLine(m)
    ensures Oversized(done + [m]) == Oversized(done) + if |m.content| > OVERSIZED_MESSAGE_RUNES then 1 else 0
  {
    MeasureStep(done, m);
    assert (done + [m])[..|done|] == done;
  }

  /** One Map call's result; `err` is empty on success. */
  datatype MapOutcome = MapOutcome(summary: string, processed: nat, oversized: nat, err: Option<string>)

  type MapCall = seq<Msg> -> MapOutcome

  /** What the model answers to a prompt. */
  datatype Reply = Replied(content: string) | CallFailed(err: string)

  /** summarizeMessagesChunk, as a function of the model. */
  function ChunkCall(model: string -> Reply): MapCall {
    (chunk: seq<Msg>) =>
      match model(Rendered(chunk))
      case CallFailed(err) => MapOutcome("", |chunk|, Oversized(chunk), Some("call LLM: " + err))
      case Replied(content) => MapOutcome(Markdown.TrimSpace(content), |chunk|, Oversized(chunk), None)
  }

  method SummarizeMessagesChunk(model: string -> Reply, chunk: seq<Msg>) returns (o: MapOutcome)
    ensures o == ChunkCall(model)(chunk)
  {
    var formatted, processed, oversized := FormatChunkForLLM(chunk);
    var reply := model(formatted);
    if reply.CallFailed? {
      return MapOutcome("", processed, oversized, Some("call LLM: " + reply.err));
    }
    return MapOutcome(Markdown.TrimSpace(reply.content), processed, oversized, None);
  }

  datatype Coverage = Coverage(processed: nat, oversized: nat)

  datatype MapResult = Summaries(summaries: seq<string>) | ChunkFailed(index: nat, err: string)

  /** The serial loop from chunk i on: stop at the first error, keep the coverage so far. */
  function Serial(call: MapCall, chunks: seq<seq<Msg>>, i: nat, done: seq<string>, cov: Coverage): (MapResult, Coverage)
    requires i <= |chunks|
    decreases |chunks| - i
  {
    if i == |chunks| then (Summaries(done), cov)
    else
      var o := call(chunks[i]);
      if o.err.Some? then (ChunkFailed(i, o.err.value), cov)
      else Serial(call, chunks, i + 1, done + [o.summary], Coverage(cov.processed + o.processed, cov.oversized + o.oversized))
  }

  method SummarizeSerially(call: MapCall, chunks: seq<seq<Msg>>, cov: Coverage) returns (r: MapResult, cov': Coverage)
    ensures (r, cov') == Serial(call, chunks, 0, [], cov)
  {
    var summaries: seq<string> := [];
    cov' := cov;
    for i := 0 to |chunks|
      invariant Serial(call, chunks, 0, [], cov) == Serial(call, chunks, i, summaries, cov')
    {
      var o := call(chunks[i]);
      if o.err.Some? {
        return ChunkFailed(i, o.err.value), cov';
      }
      summaries := summaries + [o.summary];
      cov' := Coverage(cov'.processed + o.processed, cov'.oversized + o.oversized);
    }
    return Summaries(summaries), cov';
  }

  /** Every call that is neither waiting nor running has left its result in its slot. */
  ghost predicate Settled(call: MapCall, chunks: seq<seq<Msg>>, outcomes: array<MapOutcome>, waiting: set<nat>, running: set<nat>)
    reads outcomes
  {
    && outcomes.Length == |chunks|
    && forall k :: 0 <= k < |chunks| && k !in waiting && k !in running ==> outcomes[k] == call(chunks[k])
  }

  /** One call returns and writes its own slot. */
  method FinishCall(call: MapCall, chunks: seq<seq<Msg>>, outcomes: array<MapOutcome>, waiting: set<nat>, running: set<nat>, k: nat)
    requires k < |chunks| && Settled(call, chunks, outcomes, waiting, running)
    modifies outcomes
    ensures Settled(call, chunks, outcomes, waiting, running - {k})
  {
    outcomes[k] := call(chunks[k]);
  }

  /** The goroutines: any waiting call may take a free slot, any running call may finish;
      each writes its own slot of `outcomes`. */
  method RunMapCalls(call: MapCall, chunks: seq<seq<Msg>>, concurrency: nat) returns (outcomes: array<MapOutcome>)
    requires concurrency >= 1
    ensures fresh(outcomes) && Settled(call, chunks, outcomes, {}, {})
  {
    outcomes := new MapOutcome[|chunks|](_ => MapOutcome("", 0, 0, None));
    var waiting, running: set<nat> := IndexSet(|chunks|), {};
    while waiting != {} || running != {}
      invariant forall k :: k in waiting || k in running ==> k < |chunks|
      invariant |running| <= concurrency
      invariant Settled(call, chunks, outcomes, waiting, running)
      decreases waiting, running
    {
      var startNext: bool := *;
      if waiting != {} && |running| < concurrency && (startNext || running == {}) {
        var k :| k in waiting;
        waiting, running := waiting - {k}, running + {k};
      } else {
        var k :| k in running;
        FinishCall(call, chunks, outcomes, waiting, running, k);
        running := running - {k};
      }
    }
  }

  /** Bounded concurrency refines the serial loop: for every schedule the summaries, the
      coverage counters and the lowest-index error are those of the serial loop. */
  method SummarizeChunksConcurrently(call: MapCall, chunks: seq<seq<Msg>>, concurrency: int, cov: Coverage)
    returns (r: MapResult, cov': Coverage)
    ensures (r, cov') == Serial(call, chunks, 0, [], cov)
  {
    if concurrency <= 1 {
      r, cov' := SummarizeSerially(call, chunks, cov);
      return;
    }
    var outcomes := RunMapCalls(call, chunks, concurrency);
    var summaries: seq<string> := [];
    cov' := cov;
    for i := 0 to |chunks|
      invariant Serial(call, chunks, 0, [], cov) == Serial(call, chunks, i, summaries, cov')
    {
      var o := outcomes[i];
      if o.err.Some? {
        return ChunkFailed(i, o.err.value), cov';
      }
      summaries := summaries + [o.summary];
      cov' := Coverage(cov'.processed + o.processed, cov'.oversized + o.oversized);
    }
    return Summaries(summaries), cov';
  }

  // ----- Nothing is dropped -----

  lemma {:induction false} OversizedAppend(a: seq<Msg>, b: seq<Msg>)
    ensures Oversized(a + b) == Oversized(a) + Oversized(b)
    decreases |b|
  {
    if b == [] {
      assert a + b == a;
    } else {
      assert (a + b)[..|a + b| - 1] == a + b[..|b| - 1];
      OversizedAppend(a, b[..|b| - 1]);
    }
  }

  lemma {:induction false} SerialCoverage(model: string -> Reply, chunks: seq<seq<Msg>>, i: nat, done: seq<string>, cov: Coverage)
    requires i <= |chunks|
    ensures var (r, cov') := Serial(ChunkCall(model), chunks, i, done, cov);
      r.Summaries? ==>
        && cov' == Coverage(cov.processed + |Flatten(chunks[i..])|, cov.oversized + Oversized(Flatten(chunks[i..])))
        && |r.summaries| == |done| + |chunks| - i
    decreases |chunks| - i
  {
    hide Oversized;
    if i < |chunks| {
      var o := ChunkCall(model)(chunks[i]);
      assert chunks[i..][1..] == chunks[i + 1..];
      if o.err.None? {
        SerialCoverage(model, chunks, i + 1, done + [o.summary], Coverage(cov.processed + o.processed, cov.oversized + o.oversized));
        OversizedAppend(chunks[i], Flatten(chunks[i + 1..]));
      }
    } else {
      assert chunks[i..] == [];
      NothingOversized();
    }
  }

  lemma {:induction false} NothingOversized()
    ensures Oversized([]) == 0
  {
  }

  /** End to end, for every model: over the splitter's chunks a Map phase that succeeds under
      any schedule has processed every input message and counted every oversized one, and
      the summaries come one per chunk. */
  lemma {:induction false} NothingDropped(model: string -> Reply, msgs: seq<Msg>, chunks: seq<seq<Msg>>, l: Limits)
    requires GreedyPacking(msgs, chunks, l)
    ensures var (r, cov) := Serial(ChunkCall(model), chunks, 0, [], Coverage(0, 0));
      r.Summaries? ==> cov == Coverage(|msgs|, Oversized(msgs)) && |r.summaries| == |chunks|
  {
    assert chunks[0..] == chunks;
    SerialCoverage(model, chunks, 0, [], Coverage(0, 0));
  }

  /** ProbeChunkCoverage: the production path without the model drops nothing. */
  method ProbeChunkCoverage(msgs: seq<Msg>, requested: int, budget: int, cjkRatio: int, asciiRatio: int)
    returns (processed: int, dropped: int, count: nat)
    ensures processed == |msgs| && dropped == 0
    ensures forall other :: Flatten(other) == msgs && AllFit(other, Effective(budget, ClampChunkSize(requested), cjkRatio, asciiRatio))
                            ==> count <= |other|
  {
    if msgs == [] {
      return 0, 0, 0;
    }
    var chunks := SplitByTokenBudget(msgs, budget, ClampChunkSize(requested), cjkRatio, asciiRatio);
    processed := 0;
    for i := 0 to |chunks|
      invariant processed == |Flatten(chunks[..i])|
    {
      var formatted, p, oversized := FormatChunkForLLM(chunks[i]);
      TakeNext(chunks, i);
      FlattenAppend(chunks[..i], chunks[i]);
      processed := processed + p;
    }
    assert chunks[..|chunks|] == chunks;
    return processed, |msgs| - processed, |chunks|;
  }
}
