/** The streaming client (llmclient/client.go): one attempt decodes server-sent events and
    hands each delta to the caller; the fallback runner retries attempts. */
module StreamClient {
  import opened GoText
  import opened Fallback

  /** One scanned line of the response body. */
  datatype Line =
    | Ignored
    | DoneMarker
    | Malformed
    | Chunk(totalTokens: nat, hasChoice: bool, finishReason: string, reasoningBytes: nat, delta: string)

  datatype StreamResult = StreamResult(content: string, usage: nat, finishReason: string, reasoningSize: nat, emitted: bool)

  const EMPTY_RESULT := StreamResult("", 0, "", 0, false)

  /** What a body holds and how the caller treats it: whether there is a callback, and the
      index of the delta it returns an error for. */
  datatype Body = Body(lines: seq<Line>, readError: bool, limitHit: bool, listening: bool, refusal: Option<nat>)

  /** Everything that can happen to one attempt; the validator's verdict is given as the
      outcome and whether it came with an error. */
  datatype Script =
    | Unsendable
    | NoResponse(parentDead: bool, buildError: bool)
    | HttpError(code: int)
    | Response(body: Body, parentDead: bool, verdict: Option<(Outcome, bool)>)

  datatype DecodeState = Reading | Finished | BadChunk | Refused

  datatype Decoding = Decoding(result: StreamResult, delivered: seq<string>, terminalSeen: bool, state: DecodeState)

  function DecodeLine(d: Decoding, l: Line, listening: bool, refusal: Option<nat>): Decoding {
    match l
    case Ignored => d
    case DoneMarker => d.(terminalSeen := true, state := Finished)
    case Malformed => d.(state := BadChunk)
    case Chunk(tokens, hasChoice, finish, reasoning, delta) =>
      var r := if tokens > 0 then d.result.(usage := tokens) else d.result;
      if !hasChoice then d.(result := r)
      else
        var r' := r.(finishReason := if finish != "" then finish else r.finishReason, reasoningSize := r.reasoningSize + reasoning);
        var seen := d.terminalSeen || finish != "";
        if delta == "" then d.(result := r', terminalSeen := seen)
        else if !listening then d.(result := r'.(content := r'.content + delta), terminalSeen := seen)
        else Decoding(r'.(content := r'.content + delta, emitted := true), d.delivered + [delta], seen,
                      if refusal == Some(|d.delivered|) then Refused else Reading)
  }

  /** Decoding lines[..n]. */
  function DecodeLines(b: Body, n: nat): Decoding
    requires n <= |b.lines|
  {
    if n == 0 then Decoding(EMPTY_RESULT, [], false, Reading)
    else
      var d := DecodeLines(b, n - 1);
      if d.state == Reading then DecodeLine(d, b.lines[n - 1], b.listening, b.refusal) else d
  }

  function StreamFailureOutcome(emitted: bool): Outcome {
    if emitted then Terminal else RetrySameModel
  }

  datatype Decoded = Decoded(result: StreamResult, outcome: Outcome, err: Err, tooLarge: bool)

  function Conclude(b: Body): Decoded {
    var d := DecodeLines(b, |b.lines|);
    if d.state == Refused then Decoded(d.result, Terminal, Plain("callback"), false)
    else if d.state == BadChunk then Decoded(d.result, StreamFailureOutcome(d.result.emitted), Plain("decode"), false)
    else if b.readError then Decoded(d.result, StreamFailureOutcome(d.result.emitted), Plain("read"), false)
    else if b.limitHit then Decoded(d.result, StreamFailureOutcome(d.result.emitted), Plain("too large"), true)
    else if !d.terminalSeen then Decoded(d.result, StreamFailureOutcome(d.result.emitted), Plain("no terminal marker"), false)
    else Decoded(d.result, Success, Nil, false)
  }

  /** The caller's callback. */
  class Sink {
    var delivered: seq<string>

    constructor ()
      ensures delivered == []
    {
      delivered := [];
    }

    method OnDelta(delta: string, accept: bool) returns (ok: bool)
      modifies this
      ensures delivered == old(delivered) + [delta] && ok == accept
    {
      delivered := delivered + [delta];
      ok := accept;
    }
  }

  lemma {:induction false} DecodingSettled(b: Body, n: nat, m: nat)
    requires n <= m <= |b.lines| && DecodeLines(b, n).state != Reading
    ensures DecodeLines(b, m) == DecodeLines(b, n)
  {
    if n < m {
      DecodingSettled(b, n, m - 1);
    }
  }

  lemma {:induction false} DecodingStarts(b: Body)
    ensures DecodeLines(b, 0) == Decoding(EMPTY_RESULT, [], false, Reading)
  {
  }

  lemma {:induction false} DecodingGoesOn(b: Body, n: nat)
    requires n < |b.lines| && DecodeLines(b, n).state == Reading
    ensures DecodeLines(b, n + 1) == DecodeLine(DecodeLines(b, n), b.lines[n], b.listening, b.refusal)
  {
  }

  /** decodeStream hands the callback exactly the deltas of its decoding, in order. */
  method DecodeStream(b: Body, sink: Sink) returns (r: Decoded)
    modifies sink
    ensures r == Conclude(b)
    ensures sink.delivered == old(sink.delivered) + DecodeLines(b, |b.lines|).delivered
  {
    hide DecodeLines;
    var result := EMPTY_RESULT;
    var terminalSeen := false;
    var count := 0;
    var i := 0;
    DecodingStarts(b);
    while i < |b.lines|
      invariant 0 <= i <= |b.lines|
      invariant DecodeLines(b, i) == Decoding(result, DecodeLines(b, i).delivered, terminalSeen, Reading)
      invariant count == |DecodeLines(b, i).delivered|
      invariant sink.delivered == old(sink.delivered) + DecodeLines(b, i).delivered
    {
      var line := b.lines[i];
      DecodingGoesOn(b, i);
      i := i + 1;
      if line.Ignored? {
        continue;
      }
      if line.DoneMarker? {
        terminalSeen := true;
        DecodingSettled(b, i, |b.lines|);
        break;
      }
      if line.Malformed? {
        DecodingSettled(b, i, |b.lines|);
        return Decoded(result, StreamFailureOutcome(result.emitted), Plain("decode"), false);
      }
      if line.totalTokens > 0 {
        result := result.(usage := line.totalTokens);
      }
      if !line.hasChoice {
        continue;
      }
      if line.finishReason != "" {
        terminalSeen := true;
        result := result.(finishReason := line.finishReason);
      }
      result := result.(reasoningSize := result.reasoningSize + line.reasoningBytes);
      if line.delta == "" {
        continue;
      }
      result := result.(content := result.content + line.delta);
      if b.listening {
        result := result.(emitted := true);
        var ok := sink.OnDelta(line.delta, b.refusal != Some(count));
        count := count + 1;
        if !ok {
          DecodingSettled(b, i, |b.lines|);
          return Decoded(result, Terminal, Plain("callback"), false);
        }
      }
    }
    if b.readError {
      return Decoded(result, StreamFailureOutcome(result.emitted), Plain("read"), false);
    }
    if b.limitHit {
      return Decoded(result, StreamFailureOutcome(result.emitted), Plain("too large"), true);
    }
    if !terminalSeen {
      return Decoded(result, StreamFailureOutcome(result.emitted), Plain("no terminal marker"), false);
    }
    return Decoded(result, Success, Nil, false);
  }

  // ----- What a body says, line by line -----

  /** A line with a piece of the answer. */
  predicate Answers(l: Line) {
    l.Chunk? && l.hasChoice && l.delta != ""
  }

  /** A line that declares the answer complete. */
  predicate Completes(l: Line) {
    l.DoneMarker? || (l.Chunk? && l.hasChoice && l.finishReason != "")
  }

  function AnswersIn(lines: seq<Line>): (n: nat)
    ensures n <= |lines|
  {
    if lines == [] then 0 else AnswersIn(lines[..|lines| - 1]) + if Answers(lines[|lines| - 1]) then 1 else 0
  }

  /** The callback returns an error for this line. */
  predicate RefusedAt(b: Body, k: nat)
    requires k < |b.lines|
  {
    b.listening && Answers(b.lines[k]) && b.refusal == Some(AnswersIn(b.lines[..k]))
  }

  /** Nothing is read behind this line. */
  predicate Stops(b: Body, k: nat)
    requires k < |b.lines|
  {
    b.lines[k].DoneMarker? || b.lines[k].Malformed? || RefusedAt(b, k)
  }

  ghost predicate Read(b: Body, k: nat) {
    k < |b.lines| && forall j :: 0 <= j < k ==> !Stops(b, j)
  }

  ghost predicate SomethingEmitted(b: Body) {
    b.listening && exists k: nat :: Read(b, k) && Answers(b.lines[k])
  }

  /** No line that is read is malformed, no delta is refused, the body is read without error
      and within the limit, and some line that is read declares the answer complete. */
  ghost predicate CompleteBody(b: Body) {
    && (forall k: nat :: Read(b, k) ==> !b.lines[k].Malformed? && !RefusedAt(b, k))
    && !b.readError && !b.limitHit
    && exists k: nat :: Read(b, k) && Completes(b.lines[k])
  }

  /** The pieces of the answer, in order. */
  function Pieces(lines: seq<Line>): seq<string> {
    if lines == [] then []
    else Pieces(lines[..|lines| - 1]) + if Answers(lines[|lines| - 1]) then [lines[|lines| - 1].delta] else []
  }

  /** The last value that the choices of some lines give, or the default. */
  function LastReason(lines: seq<Line>): string {
    if lines == [] then ""
    else
      var l := lines[|lines| - 1];
      if l.Chunk? && l.hasChoice && l.finishReason != "" then l.finishReason else LastReason(lines[..|lines| - 1])
  }

  function LastUsage(lines: seq<Line>): nat {
    if lines == [] then 0
    else
      var l := lines[|lines| - 1];
      if l.Chunk? && l.totalTokens > 0 then l.totalTokens else LastUsage(lines[..|lines| - 1])
  }

  function Reasoning(lines: seq<Line>): nat {
    if lines == [] then 0
    else
      var l := lines[|lines| - 1];
      Reasoning(lines[..|lines| - 1]) + if l.Chunk? && l.hasChoice then l.reasoningBytes else 0
  }

  /** The first n lines are read. */
  ghost predicate ReadUpTo(b: Body, n: nat) {
    n <= |b.lines| && forall k :: 0 <= k < n ==> Read(b, k)
  }

  /** What the decoder holds after the lines it has read. */
  lemma {:induction false} DecodedLines(b: Body, n: nat)
    requires ReadUpTo(b, n)
    ensures var d, lines := DecodeLines(b, n), b.lines[..n];
      && d.result == StreamResult(Flatten(Pieces(lines)), LastUsage(lines), LastReason(lines), Reasoning(lines), b.listening && AnswersIn(lines) > 0)
      && d.delivered == (if b.listening then Pieces(lines) else [])
      && (d.terminalSeen <==> exists k :: 0 <= k < n && Completes(b.lines[k]))
      && d.state == (if n == 0 || !Stops(b, n - 1) then Reading
                     else if b.lines[n - 1].DoneMarker? then Finished else if b.lines[n - 1].Malformed? then BadChunk else Refused)
  {
    if n > 0 {
      hide Pieces, LastUsage, LastReason, Reasoning, AnswersIn, Flatten, DecodeLines, Completes;
      assert b.lines[..n][..n - 1] == b.lines[..n - 1];
      assert Read(b, n - 1);
      DecodedLines(b, n - 1);
      PiecesCount(b.lines[..n - 1]);
      DecodedOne(b, n);
    }
  }

  lemma {:induction false} PiecesCount(lines: seq<Line>)
    ensures |Pieces(lines)| == AnswersIn(lines)
  {
    if lines != [] {
      PiecesCount(lines[..|lines| - 1]);
    }
  }

  /** What one line does to what the decoder holds. */
  lemma {:induction false} OneLineDecoded(d: Decoding, l: Line, listening: bool, refusal: Option<nat>)
    requires d.state == Reading
    ensures var d' := DecodeLine(d, l, listening, refusal);
      && d'.result == StreamResult(d.result.content + (if Answers(l) then l.delta else ""),
                                   if l.Chunk? && l.totalTokens > 0 then l.totalTokens else d.result.usage,
                                   if l.Chunk? && l.hasChoice && l.finishReason != "" then l.finishReason else d.result.finishReason,
                                   d.result.reasoningSize + (if l.Chunk? && l.hasChoice then l.reasoningBytes else 0),
                                   d.result.emitted || (listening && Answers(l)))
      && d'.delivered == d.delivered + (if listening && Answers(l) then [l.delta] else [])
      && (d'.terminalSeen <==> d.terminalSeen || Completes(l))
      && d'.state == (if l.DoneMarker? then Finished else if l.Malformed? then BadChunk
                      else if listening && Answers(l) && refusal == Some(|d.delivered|) then Refused else Reading)
  {
    assert d.result.content + "" == d.result.content && d.delivered + [] == d.delivered;
  }

  lemma {:induction false} DecodedOne(b: Body, n: nat)
    requires 0 < n <= |b.lines| && (n == 1 || !Stops(b, n - 2))
    requires |Pieces(b.lines[..n - 1])| == AnswersIn(b.lines[..n - 1])
    requires var d, lines := DecodeLines(b, n - 1), b.lines[..n - 1];
      && d.result == StreamResult(Flatten(Pieces(lines)), LastUsage(lines), LastReason(lines), Reasoning(lines), b.listening && AnswersIn(lines) > 0)
      && d.delivered == (if b.listening then Pieces(lines) else [])
      && (d.terminalSeen <==> exists k :: 0 <= k < n - 1 && Completes(b.lines[k]))
      && d.state == Reading
    ensures var d, lines := DecodeLines(b, n), b.lines[..n];
      && d.result == StreamResult(Flatten(Pieces(lines)), LastUsage(lines), LastReason(lines), Reasoning(lines), b.listening && AnswersIn(lines) > 0)
      && d.delivered == (if b.listening then Pieces(lines) else [])
      && (d.terminalSeen <==> exists k :: 0 <= k < n && Completes(b.lines[k]))
      && d.state == (if !Stops(b, n - 1) then Reading
                     else if b.lines[n - 1].DoneMarker? then Finished else if b.lines[n - 1].Malformed? then BadChunk else Refused)
  {
    hide Pieces, LastUsage, LastReason, Reasoning, AnswersIn, Flatten, DecodeLines, DecodeLine, Answers, Completes;
    var before, l := b.lines[..n - 1], b.lines[n - 1];
    assert b.lines[..n] == before + [l];
    OneMoreLine(before, l);
    DecodingGoesOn(b, n - 1);
    OneLineDecoded(DecodeLines(b, n - 1), l, b.listening, b.refusal);
    SeenBy(b, n);
    assert Pieces(before) + [] == Pieces(before);
  }

  lemma {:induction false} SeenBy(b: Body, n: nat)
    requires 0 < n <= |b.lines|
    ensures (exists k :: 0 <= k < n && Completes(b.lines[k])) <==> (exists k :: 0 <= k < n - 1 && Completes(b.lines[k])) || Completes(b.lines[n - 1])
  {
    hide Completes;
  }

  lemma {:induction false} OneMoreLine(before: seq<Line>, l: Line)
    ensures var lines := before + [l];
      && Pieces(lines) == Pieces(before) + (if Answers(l) then [l.delta] else [])
      && Flatten(Pieces(lines)) == Flatten(Pieces(before)) + (if Answers(l) then l.delta else "")
      && LastUsage(lines) == (if l.Chunk? && l.totalTokens > 0 then l.totalTokens else LastUsage(before))
      && LastReason(lines) == (if l.Chunk? && l.hasChoice && l.finishReason != "" then l.finishReason else LastReason(before))
      && Reasoning(lines) == Reasoning(before) + (if l.Chunk? && l.hasChoice then l.reasoningBytes else 0)
      && AnswersIn(lines) == AnswersIn(before) + if Answers(l) then 1 else 0
  {
    var lines := before + [l];
    assert lines[..|lines| - 1] == before;
    if Answers(l) {
      FlattenAppend(Pieces(before), l.delta);
    } else {
      assert Pieces(before) + [] == Pieces(before) && Flatten(Pieces(before)) + "" == Flatten(Pieces(before));
    }
  }

  /** How far a body is read. */
  lemma {:induction false} ReadingEnds(b: Body, n: nat) returns (end: nat)
    requires ReadUpTo(b, n) && (n == 0 || !Stops(b, n - 1))
    ensures n <= end <= |b.lines| && ReadUpTo(b, end) && (forall k: nat :: Read(b, k) <==> k < end)
    ensures DecodeLines(b, |b.lines|) == DecodeLines(b, end)
    ensures end == |b.lines| || (end > 0 && Stops(b, end - 1))
    ensures forall k :: 0 <= k < end - 1 ==> !Stops(b, k)
    decreases |b.lines| - n
  {
    forall j | 0 <= j < n ensures !Stops(b, j) {
      if j < n - 1 { assert Read(b, n - 1); }
    }
    if n == |b.lines| {
      end := n;
    } else {
      assert Read(b, n);
      if Stops(b, n) {
        end := n + 1;
        DecodedLines(b, n + 1);
        DecodingSettled(b, n + 1, |b.lines|);
      } else {
        end := ReadingEnds(b, n + 1);
      }
    }
  }

  /** When a stream is a success, and what every failure is. */
  lemma {:induction false} StreamSucceedsIff(b: Body)
    ensures Conclude(b).outcome == Success <==> CompleteBody(b)
    ensures Conclude(b).err == Nil <==> CompleteBody(b)
    ensures !CompleteBody(b) ==> Conclude(b).outcome == if SomethingEmitted(b) then Terminal else RetrySameModel
    ensures Conclude(b).tooLarge <==>
              (forall k: nat :: Read(b, k) ==> !b.lines[k].Malformed? && !RefusedAt(b, k)) && !b.readError && b.limitHit
  {
    hide DecodeLines, AnswersIn, Pieces, LastUsage, LastReason, Reasoning, Flatten;
    var end := ReadingEnds(b, 0);
    DecodedLines(b, end);
    AnswersSomewhere(b.lines[..end]);
    assert forall k :: 0 <= k < end ==> b.lines[..end][k] == b.lines[k];
    if end > 0 {
      assert Read(b, end - 1);
      assert RefusedAt(b, end - 1) ==> Answers(b.lines[end - 1]);
    }
    forall k: nat | Read(b, k) ensures k < end - 1 ==> !Stops(b, k) {}
  }

  lemma {:induction false} AnswersSomewhere(lines: seq<Line>)
    ensures AnswersIn(lines) > 0 <==> exists k :: 0 <= k < |lines| && Answers(lines[k])
  {
    if lines != [] {
      var front := lines[..|lines| - 1];
      AnswersSomewhere(front);
      if k :| 0 <= k < |lines| && Answers(lines[k]) {
        if k < |front| { assert Answers(front[k]); }
      }
      if k :| 0 <= k < |front| && Answers(front[k]) {
        assert Answers(lines[k]);
      }
    }
  }

  /** What a stream returns: of the lines that are read, exactly the pieces of the answer in
      order, the last finish reason and the last usage. */
  lemma {:induction false} StreamReturns(b: Body) returns (end: nat)
    ensures end <= |b.lines| && forall k: nat :: Read(b, k) <==> k < end
    ensures var r, lines := Conclude(b).result, b.lines[..end];
      && r.content == Flatten(Pieces(lines)) && r.finishReason == LastReason(lines) && r.usage == LastUsage(lines)
      && r.reasoningSize == Reasoning(lines) && (r.emitted <==> SomethingEmitted(b))
  {
    end := ReadingEnds(b, 0);
    DecodedLines(b, end);
    AnswersSomewhere(b.lines[..end]);
    assert forall k :: 0 <= k < end ==> b.lines[..end][k] == b.lines[k];
  }

  /** One attempt of Stream, and what the callback received from it. */
  function StreamAttempt(s: Script): AttemptResult<StreamResult> {
    match s
    case Unsendable => AttemptResult(EMPTY_RESULT, Terminal, Plain("marshal"))
    case NoResponse(parentDead, buildError) =>
      AttemptResult(EMPTY_RESULT, if parentDead || buildError then Terminal else RetrySameModel, if parentDead then CtxErr else Plain("transport"))
    case HttpError(code) => AttemptResult(EMPTY_RESULT, ClassifyNonOKStatus(code), Plain("status"))
    case Response(body, parentDead, verdict) =>
      var d := Conclude(body);
      if d.err != Nil then
        if parentDead then AttemptResult(d.result, Terminal, CtxErr)
        else if d.tooLarge then AttemptResult(d.result, Terminal, d.err)
        else AttemptResult(d.result, d.outcome, d.err)
      else
        match verdict
        case None => AttemptResult(d.result, Success, Nil)
        case Some((outcome, failed)) =>
          AttemptResult(d.result, if d.result.emitted && outcome != Success then Terminal else outcome, if failed then Plain("validate") else Nil)
  }

  /** The attempt got a complete answer, and the validator, if there is one, raised no error
      and called it a success. */
  ghost predicate CompleteAnswer(s: Script) {
    s.Response? && CompleteBody(s.body) && (s.verdict.Some? ==> s.verdict.value.0 == Success)
  }

  /** How an attempt ends, case by case. */
  lemma {:induction false} AttemptMeaning(s: Script)
    ensures StreamAttempt(s).val == if s.Response? then Conclude(s.body).result else EMPTY_RESULT
    ensures StreamAttempt(s).outcome == Success && s.Response? ==> CompleteAnswer(s)
    ensures CompleteAnswer(s) ==> StreamAttempt(s).outcome == Success
    ensures StreamAttempt(s).err == Nil <==> s.Response? && CompleteBody(s.body) && (s.verdict.Some? ==> !s.verdict.value.1)
    ensures s.Unsendable? ==> StreamAttempt(s).outcome == Terminal
    ensures s.NoResponse? ==> StreamAttempt(s).outcome == if s.parentDead || s.buildError then Terminal else RetrySameModel
    ensures s.HttpError? ==> StreamAttempt(s).outcome != Success
    ensures s.HttpError? ==> (StreamAttempt(s).outcome == RetrySameModel <==> s.code == 429 || s.code >= 500)
    ensures s.HttpError? ==> (StreamAttempt(s).outcome == TryNextModel <==> s.code == 403)
    ensures s.Response? && !CompleteBody(s.body) ==>
              StreamAttempt(s).outcome == if s.parentDead || SomethingEmitted(s.body) || Conclude(s.body).tooLarge then Terminal else RetrySameModel
    ensures s.Response? && CompleteBody(s.body) && s.verdict.Some? && s.verdict.value.0 != Success ==>
              StreamAttempt(s).outcome == if SomethingEmitted(s.body) then Terminal else s.verdict.value.0
  {
    if s.Response? {
      StreamSucceedsIff(s.body);
      var end := StreamReturns(s.body);
    }
  }

  /** Whether the attempt had a callback, if it got as far as a body. */
  predicate Listening(s: Script) {
    s.Response? ==> s.body.listening
  }

  function Deltas(s: Script): seq<string> {
    if s.Response? then DecodeLines(s.body, |s.body.lines|).delivered else []
  }

  lemma {:induction false} DecodingIsFaithful(b: Body, n: nat)
    requires n <= |b.lines|
    ensures var d := DecodeLines(b, n);
      (d.result.emitted <==> d.delivered != []) && if b.listening then d.result.content == Flatten(d.delivered) else d.delivered == []
  {
    if n > 0 {
      DecodingIsFaithful(b, n - 1);
      var d := DecodeLines(b, n - 1);
      var l := b.lines[n - 1];
      if d.state == Reading && l.Chunk? {
        FlattenAppend(d.delivered, l.delta);
      }
    }
  }

  /** Committed once emitted: an attempt that delivered anything is never retried, and its
      content is exactly what it delivered, on success and on failure. */
  lemma {:induction false} EmissionCommits(s: Script)
    ensures var r := StreamAttempt(s);
      && (Listening(s) ==> r.val.content == Flatten(Deltas(s)))
      && (Deltas(s) != [] ==> Listening(s) && (r.outcome == Success || r.outcome == Terminal))
  {
    if s.Response? {
      DecodingIsFaithful(s.body, |s.body.lines|);
    }
  }

  ghost function Upstreams(scripts: (nat, nat) -> Script): Upstream<StreamResult> {
    (p: nat, n: nat) => StreamAttempt(scripts(p, n))
  }

  /** Everything the callback receives over a run, in order. */
  function Delivered(scripts: (nat, nat) -> Script, events: seq<Event>): seq<string> {
    if events == [] then []
    else
      var e := events[|events| - 1];
      Delivered(scripts, events[..|events| - 1]) + if e.AttemptEvent? then Deltas(scripts(e.position, e.attempt)) else []
  }

  /** The attempts of a good trace are the upstream's, and only the last can deliver. */
  lemma {:induction false} OnlyTheLastAttemptDelivers(scripts: (nat, nat) -> Script, events: seq<Event>, models: nat, maxAttempts: nat)
    requires Observed(events, models, maxAttempts).good && Truthful(Upstreams(scripts), events)
    ensures var m := Observed(events, models, maxAttempts);
      Delivered(scripts, events) == if m.ended then Deltas(scripts(m.position, m.attempts)) else []
  {
    if events != [] {
      var front, e := events[..|events| - 1], events[|events| - 1];
      assert Truthful(Upstreams(scripts), front) by {
        forall i | 0 <= i < |front| && Attempts(front[i])
          ensures front[i].outcome == Upstreams(scripts)(front[i].position, front[i].attempt).outcome
        {
          assert front[i] == events[i];
        }
      }
      OnlyTheLastAttemptDelivers(scripts, front, models, maxAttempts);
      if Attempts(e) {
        assert e.outcome == Upstreams(scripts)(e.position, e.attempt).outcome;
        EmissionCommits(scripts(e.position, e.attempt));
      }
    }
  }

  /** No double emission: an attempt that delivered anything is the last one of its run. */
  lemma {:induction false} NoDoubleEmission(scripts: (nat, nat) -> Script, events: seq<Event>, models: nat, maxAttempts: nat, n: nat)
    requires Observed(events, models, maxAttempts).good && Observed(events, models, maxAttempts).reported
    requires Truthful(Upstreams(scripts), events)
    requires n < |events| && Attempts(events[n]) && Deltas(scripts(events[n].position, events[n].attempt)) != []
    ensures n == |events| - 2
    ensures Delivered(scripts, events) == Deltas(scripts(events[n].position, events[n].attempt))
  {
    assert events[n].outcome == Upstreams(scripts)(events[n].position, events[n].attempt).outcome;
    EmissionCommits(scripts(events[n].position, events[n].attempt));
    TraceMeaning(events, models, maxAttempts, n);
    OnlyTheLastAttemptDelivers(scripts, events, models, maxAttempts);
    GoodPrefix(events, n + 1, models, maxAttempts);
    assert events[..n + 1][..n] == events[..n];
    assert events[..|events| - 1] == events[..n + 1];
  }

  /** The client's attempts never nest another run, so their errors carry no marker. */
  lemma {:induction false} AttemptsUnmarked(scripts: (nat, nat) -> Script)
    ensures AllUnmarked(Upstreams(scripts))
  {
    forall p, n ensures Unmarked(Upstreams(scripts)(p, n).err) {
      assert Upstreams(scripts)(p, n) == StreamAttempt(scripts(p, n));
    }
  }

  /** Without a callback nothing is delivered, and every attempt may be retried. */
  lemma {:induction false} NothingDelivered(scripts: (nat, nat) -> Script, events: seq<Event>)
    requires forall p, n :: scripts(p, n).Response? ==> !scripts(p, n).body.listening
    ensures Delivered(scripts, events) == []
  {
    if events != [] {
      NothingDelivered(scripts, events[..|events| - 1]);
      var e := events[|events| - 1];
      if e.AttemptEvent? && scripts(e.position, e.attempt).Response? {
        DecodingIsFaithful(scripts(e.position, e.attempt).body, |scripts(e.position, e.attempt).body.lines|);
      }
    }
  }

  /** A streaming call: what the callback received is exactly the content returned, and
      every switch between models tells the attempts made. */
  method Stream(ctx: Context, scripts: (nat, nat) -> Script, models: nat, configuredAttempts: int, listening: bool, obs: Observer)
    returns (res: StreamResult, err: Err)
    requires obs.events == []
    requires forall p, n :: scripts(p, n).Response? ==> scripts(p, n).body.listening == listening
    modifies ctx, obs
    ensures Truthful(Upstreams(scripts), obs.events)
    ensures var m := Observed(obs.events, models, AtLeastOne(configuredAttempts)); m.good && m.reported && m.exact
    ensures if listening then Flatten(Delivered(scripts, obs.events)) == res.content else Delivered(scripts, obs.events) == []
    ensures Observed(obs.events, models, AtLeastOne(configuredAttempts)).ended ==>
              var m := Observed(obs.events, models, AtLeastOne(configuredAttempts));
              m.attempts >= 1 && res == StreamAttempt(scripts(m.position, m.attempts)).val && err == StreamAttempt(scripts(m.position, m.attempts)).err
    ensures err == Nil ==> var m := Observed(obs.events, models, AtLeastOne(configuredAttempts));
              m.ended && m.attempts >= 1 && scripts(m.position, m.attempts).Response? && CompleteBody(scripts(m.position, m.attempts).body)
  {
    var up := (p: nat, n: nat) => StreamAttempt(scripts(p, n));
    assert forall p: nat, n: nat :: up(p, n) == Upstreams(scripts)(p, n);
    res, err := Run(ctx, up, EMPTY_RESULT, models, configuredAttempts, obs);
    StreamTold(scripts, up, obs.events, models, AtLeastOne(configuredAttempts));
    if err == Nil {
      var m := Observed(obs.events, models, AtLeastOne(configuredAttempts));
      AttemptMeaning(scripts(m.position, m.attempts));
    }
    if listening {
      OnlyTheLastAttemptDelivers(scripts, obs.events, models, AtLeastOne(configuredAttempts));
      var m := Observed(obs.events, models, AtLeastOne(configuredAttempts));
      if m.ended {
        EmissionCommits(scripts(m.position, m.attempts));
      }
    } else {
      NothingDelivered(scripts, obs.events);
    }
  }

  lemma {:induction false} StreamTold(scripts: (nat, nat) -> Script, up: Upstream<StreamResult>, events: seq<Event>, models: nat, maxAttempts: nat)
    requires forall p, n :: up(p, n) == StreamAttempt(scripts(p, n))
    ensures AllTold(up, events, models, maxAttempts)
  {
    AttemptsUnmarked(scripts);
    forall p, n ensures Unmarked(up(p, n).err) {
      assert up(p, n) == Upstreams(scripts)(p, n);
    }
    UnmarkedTells(up, maxAttempts);
    AlwaysTold(up, events, models, maxAttempts);
  }
}
