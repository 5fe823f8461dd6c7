/**
 Streaming with fallback (internal/server/chat.go).  What a provider does is a
 script, chosen arbitrarily: failing to open, closing at once, staying silent,
 losing the client, or sending any finite sequence of chunks.
 */
module Streaming {
  import opened Prelude
  import opened Events

  datatype ProviderError = Timeout | RateLimit | Auth | Server5xx | BadRequest | BadResponse | ModelUnavailable
      | Interrupted | OtherError

  function ErrorStatus(e: ProviderError): int {
    match e
    case Timeout => 504
    case RateLimit => 429
    case BadRequest => 400
    case _ => 502
  }

  function ErrorCode(e: ProviderError): string {
    match e
    case Timeout => "provider_timeout"
    case RateLimit => "provider_rate_limit"
    case Auth => "provider_auth_error"
    case Server5xx => "provider_5xx"
    case BadRequest => "provider_bad_request"
    case BadResponse => "provider_bad_response"
    case ModelUnavailable => "model_unavailable"
    case Interrupted => "stream_interrupted"
    case OtherError => "provider_error"
  }

  datatype Chunk = Chunk(data: string, done: bool, err: Option<ProviderError>, inputTokens: int, outputTokens: int)

  /** What a provider does with one attempt, up to the closing of its channel. */
  datatype Script =
    | OpenError(error: ProviderError)
    | ClosedEarly
    | NoFirstToken
    | ClientGone
    | Streams(first: Chunk, rest: seq<Chunk>)

  datatype Candidate = Candidate(modelId: string, providerId: string)

  /** What reaches the client, in order. */
  datatype Write =
    | JsonError(status: int, code: string)
    | StreamHeader(modelId: string)
    | Data(payload: string)
    | DoneMark
    | ErrorMark(error: ProviderError)

  /** One call of the attempt recorder. */
  datatype Report = Report(candidate: Candidate, index: nat, error: Option<ProviderError>, inputTokens: int,
      outputTokens: int)

  datatype Meta = Meta(requestId: string, tenantId: string, projectId: string, estimatedCostUsd: real,
      costFn: Option<(string, string, int, int) -> real>)

  // ---------------------------------------------------------------- what a request should produce

  predicate Terminal(c: Chunk) { c.err.Some? || c.done }

  /** Position of the first chunk that ends the stream, or the number of chunks. */
  function EndOf(chunks: seq<Chunk>): (n: nat)
    ensures n <= |chunks|
    ensures forall i :: 0 <= i < n ==> !Terminal(chunks[i])
    ensures n < |chunks| ==> Terminal(chunks[n])
  {
    if chunks == [] || Terminal(chunks[0]) then 0 else 1 + EndOf(chunks[1..])
  }

  /** The non-empty payloads, in order. */
  function Payloads(chunks: seq<Chunk>): seq<Write> {
    if chunks == [] then []
    else
      var last := chunks[|chunks| - 1];
      Payloads(chunks[..|chunks| - 1]) + if last.data != "" then [Data(last.data)] else []
  }

  function Terminator(chunks: seq<Chunk>): seq<Write> {
    var n := EndOf(chunks);
    if n == |chunks| then []
    else if chunks[n].err.Some? then [ErrorMark(chunks[n].err.value)]
    else [DoneMark]
  }

  predicate CarriesUsage(c: Chunk) { c.inputTokens > 0 || c.outputTokens > 0 }

  /** The last usage that was sent. */
  function Usage(chunks: seq<Chunk>): (int, int) {
    if chunks == [] then (0, 0)
    else
      var last := chunks[|chunks| - 1];
      if CarriesUsage(last) then (last.inputTokens, last.outputTokens) else Usage(chunks[..|chunks| - 1])
  }

  function StreamError(chunks: seq<Chunk>): Option<ProviderError> {
    var n := EndOf(chunks);
    if n == |chunks| then None else chunks[n].err
  }

  predicate Serves(s: Script) { s.Streams? && s.first.err.None? }

  /** Chunks of a script that serves. */
  function AllChunks(s: Script): seq<Chunk>
    requires s.Streams?
  {
    [s.first] + s.rest
  }

  /** Position of the first candidate that serves or whose client leaves, or the number of candidates. */
  function StopAt(scripts: seq<Script>): (n: nat)
    ensures n <= |scripts|
    ensures forall i :: 0 <= i < n ==> !Serves(scripts[i]) && !scripts[i].ClientGone?
    ensures n < |scripts| ==> Serves(scripts[n]) || scripts[n].ClientGone?
  {
    if scripts == [] || Serves(scripts[0]) || scripts[0].ClientGone? then 0 else 1 + StopAt(scripts[1..])
  }

  /** The error of an attempt that neither serves nor loses the client. */
  function FailureOf(s: Script): ProviderError
    requires !Serves(s) && !s.ClientGone?
  {
    match s
    case OpenError(e) => e
    case ClosedEarly => OtherError
    case NoFirstToken => Timeout
    case Streams(first, rest) => first.err.value
  }

  function FailureReport(c: Candidate, s: Script, i: nat): Report
    requires !Serves(s) && !s.ClientGone?
  {
    Report(c, i, Some(FailureOf(s)), 0, 0)
  }

  /** The chunks that the relay reads: up to and including the one that ends the stream. */
  function ReadChunks(chunks: seq<Chunk>): seq<Chunk> {
    var n := EndOf(chunks);
    if n < |chunks| then chunks[..n + 1] else chunks
  }

  function ServedReport(c: Candidate, s: Script, i: nat): Report
    requires Serves(s)
  {
    var chunks := AllChunks(s);
    var usage := if StreamError(chunks).Some? then (0, 0) else Usage(ReadChunks(chunks));
    Report(c, i, StreamError(chunks), usage.0, usage.1)
  }

  function Reports(candidates: seq<Candidate>, scripts: seq<Script>): seq<Report>
    requires |candidates| == |scripts|
  {
    var stop := StopAt(scripts);
    seq(stop, i requires 0 <= i < stop => FailureReport(candidates[i], scripts[i], i))
    + if stop < |scripts| && Serves(scripts[stop]) then [ServedReport(candidates[stop], scripts[stop], stop)] else []
  }

  /** The stream of one candidate: header, payloads up to the first end or error, terminator. */
  function StreamOf(c: Candidate, s: Script): seq<Write>
    requires Serves(s)
  {
    var chunks := AllChunks(s);
    [StreamHeader(c.modelId)] + Payloads(chunks[..EndOf(chunks)]) + Terminator(chunks)
  }

  function ErrorAnswer(e: ProviderError): Write { JsonError(ErrorStatus(e), ErrorCode(e)) }

  /** The answer when no candidate served: the first-chunk error of the last one, if it got that far. */
  function Exhausted(scripts: seq<Script>): Write {
    if scripts != [] && scripts[|scripts| - 1].Streams? && scripts[|scripts| - 1].first.err.Some?
    then ErrorAnswer(scripts[|scripts| - 1].first.err.value)
    else JsonError(502, "provider_error")
  }

  function Response(candidates: seq<Candidate>, scripts: seq<Script>): seq<Write>
    requires |candidates| == |scripts|
  {
    var stop := StopAt(scripts);
    if stop == |scripts| then [Exhausted(scripts)]
    else if scripts[stop].ClientGone? then []
    else StreamOf(candidates[stop], scripts[stop])
  }

  /** Attempts that were started. */
  function Attempts(scripts: seq<Script>): nat {
    var stop := StopAt(scripts);
    if stop < |scripts| then stop + 1 else stop
  }

  function Naturals(n: nat): (s: seq<nat>)
    ensures |s| == n && forall i :: 0 <= i < n ==> s[i] == i
  {
    seq(n, i => i)
  }

  /** The event the recorder enqueues; realised cost only when usage is known and can be priced. */
  function EventOf(meta: Meta, r: Report): Event {
    var actual := if (r.inputTokens > 0 || r.outputTokens > 0) && meta.costFn.Some?
                  then meta.costFn.value(r.candidate.modelId, r.candidate.providerId, r.inputTokens, r.outputTokens)
                      else 0.0;
    Event(ATTEMPT, None, Some(Attempt(
      meta.requestId, meta.tenantId, meta.projectId, r.candidate.providerId, r.candidate.modelId, r.index,
      r.error.None?, if r.error.Some? then ErrorCode(r.error.value) else "", r.inputTokens, r.outputTokens,
      actual, meta.estimatedCostUsd)))
  }

  function EventsOf(meta: Meta, reports: seq<Report>): (es: seq<Event>)
    ensures |es| == |reports|
  {
    seq(|reports|, i requires 0 <= i < |reports| => EventOf(meta, reports[i]))
  }

  /** What the health tracker is told: provider and success. */
  function HealthOf(reports: seq<Report>): (hs: seq<(string, bool)>)
    ensures |hs| == |reports|
  {
    seq(|reports|, i requires 0 <= i < |reports| => (reports[i].candidate.providerId, reports[i].error.None?))
  }

  // ---------------------------------------------------------------- what the observers should learn, spelt out

  /** Each error has its own status and code. */
  lemma ErrorsNamed()
    ensures ErrorCode(Timeout) == "provider_timeout" && ErrorStatus(Timeout) == 504
    ensures ErrorCode(RateLimit) == "provider_rate_limit" && ErrorStatus(RateLimit) == 429
    ensures ErrorCode(Auth) == "provider_auth_error" && ErrorStatus(Auth) == 502
    ensures ErrorCode(Server5xx) == "provider_5xx" && ErrorStatus(Server5xx) == 502
    ensures ErrorCode(BadRequest) == "provider_bad_request" && ErrorStatus(BadRequest) == 400
    ensures ErrorCode(BadResponse) == "provider_bad_response" && ErrorStatus(BadResponse) == 502
    ensures ErrorCode(ModelUnavailable) == "model_unavailable" && ErrorStatus(ModelUnavailable) == 502
    ensures ErrorCode(Interrupted) == "stream_interrupted" && ErrorStatus(Interrupted) == 502
    ensures ErrorCode(OtherError) == "provider_error" && ErrorStatus(OtherError) == 502
  {
  }

  /** The first chunk is good, and no chunk fails before one that ends the stream. */
  predicate ServedWell(s: Script) {
    && s.Streams? && s.first.err.None?
    && (s.first.done || forall k :: 0 <= k < |s.rest| && s.rest[k].err.Some?
                                    ==> exists j :: 0 <= j < k && s.rest[j].done)
  }

  /** What went wrong with an attempt that was not served well. */
  ghost predicate WentWrong(s: Script, e: ProviderError) {
    match s
    case OpenError(error) => e == error
    case ClosedEarly => e == OtherError
    case NoFirstToken => e == Timeout
    case ClientGone => false
    case Streams(first, rest) =>
      if first.err.Some? then first.err == Some(e)
      else exists k :: 0 <= k < |rest| && rest[k].err == Some(e)
                       && forall j :: 0 <= j < k ==> rest[j].err.None? && !rest[j].done
  }

  /** The chunks that a relay of the stream reads: none after the first that fails or ends it. */
  ghost predicate ReadOf(s: Script, read: seq<Chunk>)
    requires s.Streams?
  {
    && [s.first] <= read <= [s.first] + s.rest
    && (forall k :: 0 <= k < |read| - 1 ==> read[k].err.None? && !read[k].done)
    && (|read| <= |s.rest| ==> read[|read| - 1].err.Some? || read[|read| - 1].done)
  }

  /** The tokens of the last chunk that carries any. */
  ghost predicate LastTokens(chunks: seq<Chunk>, input: int, output: int) {
    || (input == 0 && output == 0 && forall k :: 0 <= k < |chunks|
                                                 ==> chunks[k].inputTokens <= 0 && chunks[k].outputTokens <= 0)
    || exists k :: 0 <= k < |chunks| && chunks[k].inputTokens == input && chunks[k].outputTokens == output
                   && (input > 0 || output > 0)
                   && forall j :: k < j < |chunks| ==> chunks[j].inputTokens <= 0 && chunks[j].outputTokens <= 0
  }

  /**
   So many attempts are recorded: all until one has a good first chunk, that one included, or
   until the client leaves.
   */
  predicate Recorded(n: nat, scripts: seq<Script>) {
    && n <= |scripts|
    && (forall k :: 0 <= k < n ==> !scripts[k].ClientGone?)
    && (forall k :: 0 <= k < n - 1 ==> !(scripts[k].Streams? && scripts[k].first.err.None?))
    && (n < |scripts| ==>
          scripts[n].ClientGone? || (n > 0 && scripts[n - 1].Streams? && scripts[n - 1].first.err.None?))
  }

  /** The health tracker is told once for each recorded attempt: its provider, and success iff it was served well. */
  predicate Told(health: seq<(string, bool)>, candidates: seq<Candidate>, scripts: seq<Script>)
    requires |candidates| == |scripts|
  {
    && Recorded(|health|, scripts)
    && forall k :: 0 <= k < |health| ==>
         health[k].0 == candidates[k].providerId && (health[k].1 <==> ServedWell(scripts[k]))
  }

  /** An attempt event, each field from its own place. */
  ghost predicate LogsAttempt(e: Event, meta: Meta, c: Candidate, s: Script, index: nat) {
    && e.kind == "attempt" && e.decision.None? && e.attempt.Some?
    && var a := e.attempt.value;
    && a.requestId == meta.requestId && a.tenantId == meta.tenantId && a.projectId == meta.projectId
    && a.providerId == c.providerId && a.modelId == c.modelId && a.index == index
    && (a.success <==> ServedWell(s))
    && (a.success ==> a.errorCode == "" && exists read :: ReadOf(s, read)
                                                          && LastTokens(read, a.inputTokens, a.outputTokens))
    && (!a.success ==> a.inputTokens == 0 && a.outputTokens == 0 && exists x :: WentWrong(s, x)
                                                                                && a.errorCode == ErrorCode(x))
    && a.estimatedCostUsd == meta.estimatedCostUsd
    && a.actualCostUsd == (if (a.inputTokens > 0 || a.outputTokens > 0) && meta.costFn.Some?
                           then meta.costFn.value(c.modelId, c.providerId, a.inputTokens, a.outputTokens) else 0.0)
  }

  /** One event for each recorded attempt, in order. */
  ghost predicate Logged(events: seq<Event>, meta: Meta, candidates: seq<Candidate>, scripts: seq<Script>)
    requires |candidates| == |scripts|
  {
    && Recorded(|events|, scripts)
    && forall k :: 0 <= k < |events| ==> LogsAttempt(events[k], meta, candidates[k], scripts[k], k)
  }

  /** The first candidate whose first chunk is good, or whose client leaves. */
  predicate Decides(n: nat, scripts: seq<Script>) {
    && n <= |scripts|
    && (forall k :: 0 <= k < n ==> !scripts[k].ClientGone? && !(scripts[k].Streams? && scripts[k].first.err.None?))
    && (n < |scripts| ==> scripts[n].ClientGone? || (scripts[n].Streams? && scripts[n].first.err.None?))
  }

  /** The payloads that are not empty, from the first chunk on. */
  function NonEmptyData(chunks: seq<Chunk>): seq<Write> {
    if chunks == [] then []
    else (if chunks[0].data != "" then [Data(chunks[0].data)] else []) + NonEmptyData(chunks[1..])
  }

  /**
   The header of the candidate, the payloads before the chunk that fails or ends the stream,
   and the mark for that chunk.
   */
  predicate ShowsStream(ws: seq<Write>, c: Candidate, read: seq<Chunk>)
    requires read != []
  {
    var last := read[|read| - 1];
    if last.err.Some? then
      ws == [StreamHeader(c.modelId)] + NonEmptyData(read[..|read| - 1]) + [ErrorMark(last.err.value)]
    else if last.done then ws == [StreamHeader(c.modelId)] + NonEmptyData(read[..|read| - 1]) + [DoneMark]
    else ws == [StreamHeader(c.modelId)] + NonEmptyData(read)
  }

  /** The answer of a request that candidate `n` decides, or that none does. */
  ghost predicate AnsweredAt(ws: seq<Write>, candidates: seq<Candidate>, scripts: seq<Script>, n: nat)
    requires |candidates| == |scripts| && Decides(n, scripts)
  {
    if n < |scripts| && scripts[n].ClientGone? then ws == []
    else if n < |scripts| then exists read :: read != [] && ReadOf(scripts[n], read)
                                              && ShowsStream(ws, candidates[n], read)
    else if n > 0 && scripts[n - 1].Streams? && scripts[n - 1].first.err.Some? then
      var e := scripts[n - 1].first.err.value;
      ws == [JsonError(ErrorStatus(e), ErrorCode(e))]
    else ws == [JsonError(502, "provider_error")]
  }

  /**
   The whole answer: a stream, nothing, or one error object, which names the error of a bad
   first chunk of the last candidate.
   */
  ghost predicate Answered(ws: seq<Write>, candidates: seq<Candidate>, scripts: seq<Script>)
    requires |candidates| == |scripts|
  {
    exists n: nat :: Decides(n, scripts) && AnsweredAt(ws, candidates, scripts, n)
  }

  function DataOf(c: Chunk): seq<Write> { if c.data != "" then [Data(c.data)] else [] }

  lemma JoinThree(a: seq<Write>, b: seq<Write>, c: seq<Write>)
    ensures a + (b + c) == (a + b) + c
  {
  }

  lemma NonEmptyHead(chunks: seq<Chunk>)
    requires chunks != []
    ensures NonEmptyData(chunks) == DataOf(chunks[0]) + NonEmptyData(chunks[1..])
  {
  }

  lemma {:induction false} NonEmptyConcat(a: seq<Chunk>, b: seq<Chunk>)
    ensures NonEmptyData(a + b) == NonEmptyData(a) + NonEmptyData(b)
  {
    if a == [] {
      assert a + b == b;
    } else {
      hide NonEmptyData, DataOf;
      NonEmptyConcat(a[1..], b);
      NonEmptyHead(a);
      NonEmptyHead(a + b);
      assert (a + b)[1..] == a[1..] + b;
      JoinThree(DataOf(a[0]), NonEmptyData(a[1..]), NonEmptyData(b));
    }
  }

  lemma {:induction false} PayloadsAre(chunks: seq<Chunk>)
    ensures Payloads(chunks) == NonEmptyData(chunks)
  {
    if chunks != [] {
      var front, last := chunks[..|chunks| - 1], chunks[|chunks| - 1];
      PayloadsAre(front);
      NonEmptyConcat(front, [last]);
      assert chunks == front + [last] && [last][1..] == [];
    }
  }

  lemma StreamShows(c: Candidate, s: Script)
    requires Serves(s)
    ensures exists read :: read != [] && ReadOf(s, read) && ShowsStream(StreamOf(c, s), c, read)
  {
    var chunks := AllChunks(s);
    var n, read := EndOf(chunks), ReadChunks(chunks);
    ReadIs(s);
    hide ReadOf, EndOf, NonEmptyData, Payloads;
    PayloadsAre(chunks[..n]);
    if n < |chunks| {
      assert read[..|read| - 1] == chunks[..n] && read[|read| - 1] == chunks[n];
    } else {
      assert chunks[..n] == read;
      assert !Terminal(read[|read| - 1]);
    }
    assert ShowsStream(StreamOf(c, s), c, read);
  }

  lemma AnswerTrue(candidates: seq<Candidate>, scripts: seq<Script>)
    requires |candidates| == |scripts|
    ensures Answered(Response(candidates, scripts), candidates, scripts)
  {
    var n := StopAt(scripts);
    assert Decides(n, scripts);
    assert AnsweredAt(Response(candidates, scripts), candidates, scripts, n) by {
      hide StreamOf, ReadOf, ShowsStream, ErrorStatus, ErrorCode, Decides;
      if n < |scripts| && Serves(scripts[n]) {
        StreamShows(candidates[n], scripts[n]);
      }
    }
  }

  lemma ServedWellIff(s: Script)
    requires Serves(s)
    ensures ServedWell(s) <==> StreamError(AllChunks(s)).None?
  {
    var chunks := AllChunks(s);
    var n := EndOf(chunks);
    assert forall k :: 0 <= k < |s.rest| ==> chunks[k + 1] == s.rest[k];
    if n < |chunks| && chunks[n].err.Some? {
      assert n > 0 && s.rest[n - 1] == chunks[n];
      assert forall j :: 0 <= j < n - 1 ==> chunks[j + 1] == s.rest[j];
    } else if n < |chunks| {
      assert n > 0 ==> s.rest[n - 1] == chunks[n];
    }
  }

  lemma WrongIs(s: Script)
    requires Serves(s) && StreamError(AllChunks(s)).Some?
    ensures WentWrong(s, StreamError(AllChunks(s)).value)
  {
    var chunks := AllChunks(s);
    var n := EndOf(chunks);
    assert chunks[0] == s.first && n > 0 && s.rest[n - 1] == chunks[n];
    assert forall j :: 0 <= j < n - 1 ==> chunks[j + 1] == s.rest[j];
  }

  lemma ReadIs(s: Script)
    requires Serves(s)
    ensures ReadOf(s, ReadChunks(AllChunks(s)))
  {
    var chunks := AllChunks(s);
    var n := EndOf(chunks);
    assert chunks[..|chunks|] == chunks;
  }

  lemma {:induction false} UsageIsLast(chunks: seq<Chunk>)
    ensures LastTokens(chunks, Usage(chunks).0, Usage(chunks).1)
  {
    if chunks != [] {
      var front, last := chunks[..|chunks| - 1], chunks[|chunks| - 1];
      UsageIsLast(front);
      assert forall k :: 0 <= k < |front| ==> front[k] == chunks[k];
    }
  }

  /** What the reports say of an attempt is what happened. */
  lemma ReportTrue(c: Candidate, s: Script, i: nat)
    requires Serves(s) || !s.ClientGone?
    ensures var r := if Serves(s) then ServedReport(c, s, i) else FailureReport(c, s, i);
            && r.candidate == c && r.index == i && (r.error.None? <==> ServedWell(s))
            && (r.error.None? ==> exists read :: ReadOf(s, read) && LastTokens(read, r.inputTokens, r.outputTokens))
            && (r.error.Some? ==> r.inputTokens == 0 && r.outputTokens == 0 && WentWrong(s, r.error.value))
  {
    if Serves(s) {
      ServedWellIff(s);
      ReadIs(s);
      UsageIsLast(ReadChunks(AllChunks(s)));
      if StreamError(AllChunks(s)).Some? {
        WrongIs(s);
      }
    }
  }

  lemma ReportsTrue(candidates: seq<Candidate>, scripts: seq<Script>)
    requires |candidates| == |scripts|
    ensures var rs := Reports(candidates, scripts);
            && Recorded(|rs|, scripts)
            && forall k :: 0 <= k < |rs| ==>
                 && !scripts[k].ClientGone?
                 && rs[k] == if Serves(scripts[k]) then ServedReport(candidates[k], scripts[k], k)
                             else FailureReport(candidates[k], scripts[k], k)
  {
    hide ServedReport, FailureReport;
  }

  /** The tracker is told the truth. */
  lemma HealthTrue(candidates: seq<Candidate>, scripts: seq<Script>)
    requires |candidates| == |scripts|
    ensures Told(HealthOf(Reports(candidates, scripts)), candidates, scripts)
  {
    ReportsTrue(candidates, scripts);
    var rs := Reports(candidates, scripts);
    hide Reports, ServedReport, FailureReport, ServedWell, Recorded, Serves, WentWrong, ReadOf, LastTokens;
    forall k | 0 <= k < |rs|
      ensures rs[k].candidate == candidates[k] && (rs[k].error.None? <==> ServedWell(scripts[k]))
    {
      ReportTrue(candidates[k], scripts[k], k);
    }
  }

  /** The log holds the truth. */
  lemma LogTrue(meta: Meta, candidates: seq<Candidate>, scripts: seq<Script>)
    requires |candidates| == |scripts|
    ensures Logged(EventsOf(meta, Reports(candidates, scripts)), meta, candidates, scripts)
  {
    ReportsTrue(candidates, scripts);
    var rs := Reports(candidates, scripts);
    hide Reports, ServedReport, FailureReport, ServedWell, Recorded, Serves, WentWrong, ReadOf, LastTokens, LogsAttempt;
    forall k | 0 <= k < |rs|
      ensures LogsAttempt(EventOf(meta, rs[k]), meta, candidates[k], scripts[k], k)
    {
      ReportTrue(candidates[k], scripts[k], k);
      EventTrue(meta, rs[k], candidates[k], scripts[k], k);
    }
  }

  lemma EventTrue(meta: Meta, r: Report, c: Candidate, s: Script, i: nat)
    requires r.candidate == c && r.index == i && (r.error.None? <==> ServedWell(s))
    requires r.error.None? ==> exists read :: ReadOf(s, read) && LastTokens(read, r.inputTokens, r.outputTokens)
    requires r.error.Some? ==> r.inputTokens == 0 && r.outputTokens == 0 && WentWrong(s, r.error.value)
    ensures LogsAttempt(EventOf(meta, r), meta, c, s, i)
  {
    hide ServedWell, WentWrong, ReadOf, LastTokens, ErrorCode;
  }

  // ---------------------------------------------------------------- proof of the handler

  lemma FirstChunk(chunks: seq<Chunk>)
    requires chunks != []
    ensures Payloads(chunks[..0]) == []
    ensures Payloads(chunks[..1]) == if chunks[0].data != "" then [Data(chunks[0].data)] else []
    ensures Usage(chunks[..1]) ==
            if CarriesUsage(chunks[0]) then (chunks[0].inputTokens, chunks[0].outputTokens) else (0, 0)
  {
    assert chunks[..1][..0] == [];
  }

  lemma NextChunk(chunks: seq<Chunk>, k: nat)
    requires k < |chunks|
    ensures Payloads(chunks[..k + 1]) == Payloads(chunks[..k]) +
            if chunks[k].data != "" then [Data(chunks[k].data)] else []
    ensures Usage(chunks[..k + 1]) ==
            if CarriesUsage(chunks[k]) then (chunks[k].inputTokens, chunks[k].outputTokens) else Usage(chunks[..k])
  {
    assert chunks[..k + 1][..k] == chunks[..k];
  }

  /** The first `i` attempts failed, and `failures` are their reports. */
  ghost predicate AllFailed(candidates: seq<Candidate>, scripts: seq<Script>, failures: seq<Report>, i: nat)
    requires |candidates| == |scripts|
  {
    && i <= |candidates| && |failures| == i
    && forall k :: 0 <= k < i ==> !Serves(scripts[k]) && !scripts[k].ClientGone?
                                  && failures[k] == FailureReport(candidates[k], scripts[k], k)
  }

  lemma NoneFailed(candidates: seq<Candidate>, scripts: seq<Script>)
    requires |candidates| == |scripts|
    ensures AllFailed(candidates, scripts, [], 0)
  {
  }

  lemma OneMoreFailed(candidates: seq<Candidate>, scripts: seq<Script>, failures: seq<Report>, i: nat)
    requires |candidates| == |scripts| && AllFailed(candidates, scripts, failures, i) && i < |scripts|
    ensures !Serves(scripts[i]) && !scripts[i].ClientGone? ==>
              AllFailed(candidates, scripts, failures + [FailureReport(candidates[i], scripts[i], i)], i + 1)
  {
    hide FailureReport;
  }

  /** What a request amounts to once it is known where it stops. */
  lemma StopsAt(candidates: seq<Candidate>, scripts: seq<Script>, i: nat, failures: seq<Report>)
    requires |candidates| == |scripts| && AllFailed(candidates, scripts, failures, i)
    requires i < |scripts| ==> Serves(scripts[i]) || scripts[i].ClientGone?
    ensures Attempts(scripts) == if i < |scripts| then i + 1 else i
    ensures Reports(candidates, scripts) == failures +
            if i < |scripts| && Serves(scripts[i]) then [ServedReport(candidates[i], scripts[i], i)] else []
    ensures Response(candidates, scripts) == if i == |scripts| then [Exhausted(scripts)] else
            if scripts[i].ClientGone? then [] else StreamOf(candidates[i], scripts[i])
  {
    hide ServedReport, FailureReport, StreamOf, Exhausted;
    var stop := StopAt(scripts);
    assert !(stop < i) && !(i < stop);
  }

  /** What one attempt wrote, put behind what was written before. */
  lemma Assemble(header: seq<Write>, shown: seq<Write>, before: seq<Write>, sent: seq<Write>, terminator: seq<Write>,
                 writes: seq<Write>)
    requires writes == before + sent + terminator
    ensures before <= writes && header + shown + writes[|before|..] == header + (shown + sent) + terminator
  {
    assert writes[|before|..] == sent + terminator;
  }

  /** What is written and recorded once the first end of the stream is known. */
  lemma EndsAt(c: Candidate, s: Script, i: nat, n: nat)
    requires Serves(s) && n <= |AllChunks(s)|
    requires forall k :: 0 <= k < n ==> !Terminal(AllChunks(s)[k])
    requires n < |AllChunks(s)| ==> Terminal(AllChunks(s)[n])
    ensures var chunks := AllChunks(s);
            && StreamOf(c, s) == [StreamHeader(c.modelId)] + Payloads(chunks[..n])
                              + (if n == |chunks| then [] else
                                  if chunks[n].err.Some? then [ErrorMark(chunks[n].err.value)] else [DoneMark])
            && ServedReport(c, s, i) ==
                 if n < |chunks| && chunks[n].err.Some? then Report(c, i, chunks[n].err, 0, 0)
                 else
                   var usage := Usage(chunks[..if n < |chunks| then n + 1 else n]);
                   Report(c, i, None, usage.0, usage.1)
  {
    var chunks := AllChunks(s);
    assert EndOf(chunks) == n;
    assert chunks[..|chunks|] == chunks;
  }

  // ---------------------------------------------------------------- the handler

  /** One client exchange and the observers it reports to. */
  class Exchange {
    const flushable: bool
    const hasHealth: bool
    const hasQueue: bool
    const meta: Meta
    var writes: seq<Write>
    var started: nat
    var cancelled: seq<nat>
    var health: seq<(string, bool)>
    var queued: seq<Event>
    ghost var reports: seq<Report>

    ghost predicate Valid()
      reads this
    {
      && health == (if hasHealth then HealthOf(reports) else [])
      && queued == (if hasQueue then EventsOf(meta, reports) else [])
    }

    constructor (flushable: bool, hasHealth: bool, hasQueue: bool, meta: Meta)
      ensures Valid() && writes == [] && started == 0 && cancelled == [] && reports == []
      ensures this.flushable == flushable && this.hasHealth == hasHealth && this.hasQueue == hasQueue
              && this.meta == meta
    {
      this.flushable, this.hasHealth, this.hasQueue, this.meta := flushable, hasHealth, hasQueue, meta;
      writes, started, cancelled, health, queued, reports := [], 0, [], [], [], [];
    }

    method RecordStream(r: Report)
      requires Valid()
      modifies this`health, this`queued, this`reports
      ensures Valid() && reports == old(reports) + [r]
    {
      if hasHealth {
        health := health + [(r.candidate.providerId, r.error.None?)];
      }
      if hasQueue {
        queued := queued + [EventOf(meta, r)];
      }
      assert HealthOf(reports + [r]) == HealthOf(reports) + [(r.candidate.providerId, r.error.None?)];
      assert EventsOf(meta, reports + [r]) == EventsOf(meta, reports) + [EventOf(meta, r)];
      reports := reports + [r];
    }

    method Cancel(attempt: nat)
      modifies this`cancelled
      ensures cancelled == old(cancelled) + [attempt]
    {
      cancelled := cancelled + [attempt];
    }

    method Put(w: Write)
      requires Valid()
      modifies this`writes
      ensures Valid() && writes == old(writes) + [w]
    {
      writes := writes + [w];
    }

    /** The end of an attempt that was served: terminator if any, record, cancel. */
    method Finish(terminator: seq<Write>, r: Report)
      requires Valid()
      modifies this`writes, this`cancelled, this`health, this`queued, this`reports
      ensures Valid() && writes == old(writes) + terminator
      ensures cancelled == old(cancelled) + [r.index] && reports == old(reports) + [r]
    {
      writes := writes + terminator;
      RecordStream(r);
      Cancel(r.index);
    }

    /** Relay the chunks behind the first one. */
    method Drain(c: Candidate, i: nat, s: Script, usageIn0: int, usageOut0: int)
      requires Valid() && Serves(s) && !s.first.done
      requires (usageIn0, usageOut0) == Usage(AllChunks(s)[..1])
      modifies this`writes, this`cancelled, this`health, this`queued, this`reports
      ensures Valid()
      ensures old(writes) <= writes
      ensures [StreamHeader(c.modelId)] + Payloads(AllChunks(s)[..1]) + writes[|old(writes)|..] == StreamOf(c, s)
      ensures cancelled == old(cancelled) + [i] && reports == old(reports) + [ServedReport(c, s, i)]
    {
      hide StreamOf, ServedReport, Payloads, Usage, EndOf, HealthOf, EventsOf, Valid;
      ghost var chunks := AllChunks(s);
      ghost var header := [StreamHeader(c.modelId)];
      ghost var sent: seq<Write> := [];
      var usageIn, usageOut := usageIn0, usageOut0;
      var k := 0;
      while k < |s.rest|
        invariant k <= |s.rest| && Valid() && cancelled == old(cancelled) && reports == old(reports)
        invariant forall n :: 0 <= n <= k ==> !Terminal(chunks[n])
        invariant writes == old(writes) + sent && Payloads(chunks[..1]) + sent == Payloads(chunks[..k + 1])
        invariant (usageIn, usageOut) == Usage(chunks[..k + 1])
      {
        var chunk := s.rest[k];
        assert chunks[k + 1] == chunk;
        NextChunk(chunks, k + 1);
        if chunk.inputTokens > 0 || chunk.outputTokens > 0 {
          usageIn, usageOut := chunk.inputTokens, chunk.outputTokens;
        }
        if chunk.err.Some? {
          EndsAt(c, s, i, k + 1);
          Finish([ErrorMark(chunk.err.value)], Report(c, i, chunk.err, 0, 0));
          Assemble(header, Payloads(chunks[..1]), old(writes), sent, [ErrorMark(chunk.err.value)], writes);
          return;
        }
        if chunk.done {
          EndsAt(c, s, i, k + 1);
          Finish([DoneMark], Report(c, i, None, usageIn, usageOut));
          Assemble(header, Payloads(chunks[..1]), old(writes), sent, [DoneMark], writes);
          return;
        }
        if |chunk.data| > 0 {
          Put(Data(chunk.data));
          sent := sent + [Data(chunk.data)];
        }
        k := k + 1;
      }
      EndsAt(c, s, i, |chunks|);
      Finish([], Report(c, i, None, usageIn, usageOut));
      Assemble(header, Payloads(chunks[..1]), old(writes), sent, [], writes);
    }

    /** Relay a stream whose first chunk is not an error, to its end. */
    method Relay(c: Candidate, i: nat, s: Script)
      requires Valid() && Serves(s)
      modifies this`writes, this`cancelled, this`health, this`queued, this`reports
      ensures Valid()
      ensures writes == old(writes) + StreamOf(c, s)
      ensures cancelled == old(cancelled) + [i] && reports == old(reports) + [ServedReport(c, s, i)]
    {
      hide StreamOf, ServedReport, Payloads, Usage, EndOf, HealthOf, EventsOf, Valid;
      var first := s.first;
      FirstChunk(AllChunks(s));
      Put(StreamHeader(c.modelId));
      var usageIn, usageOut := 0, 0;
      if first.inputTokens > 0 || first.outputTokens > 0 {
        usageIn, usageOut := first.inputTokens, first.outputTokens;
      }
      if first.done {
        EndsAt(c, s, i, 0);
        Finish([DoneMark], Report(c, i, None, usageIn, usageOut));
        return;
      }
      if |first.data| > 0 {
        Put(Data(first.data));
      }
      ghost var shown := writes;
      assert shown == old(writes) + [StreamHeader(c.modelId)] + Payloads(AllChunks(s)[..1]);
      Drain(c, i, s, usageIn, usageOut);
      assert writes == shown + writes[|shown|..];
    }

    /** An attempt that neither serves nor loses the client: cancelled and recorded as a failure. */
    method Fail(c: Candidate, i: nat, s: Script)
      requires Valid() && !Serves(s) && !s.ClientGone?
      modifies this`cancelled, this`health, this`queued, this`reports
      ensures Valid() && cancelled == old(cancelled) + [i] && reports == old(reports) + [FailureReport(c, s, i)]
    {
      Cancel(i);
      match s {
        case OpenError(e) => RecordStream(Report(c, i, Some(e), 0, 0));
        case ClosedEarly => RecordStream(Report(c, i, Some(OtherError), 0, 0));
        case NoFirstToken => RecordStream(Report(c, i, Some(Timeout), 0, 0));
        case Streams(first, rest) => RecordStream(Report(c, i, first.err, 0, 0));
      }
    }

    /** One attempt; `done` says that the request has been answered or abandoned. */
    method Try(c: Candidate, i: nat, s: Script, last: bool) returns (done: bool)
      requires Valid()
      modifies this
      ensures Valid() && cancelled == old(cancelled) + [i] && started == old(started) + 1
      ensures done <==> s.ClientGone? || Serves(s) || (s.Streams? && last)
      ensures reports == old(reports) + if s.ClientGone? then [] else
              if Serves(s) then [ServedReport(c, s, i)] else [FailureReport(c, s, i)]
      ensures writes == old(writes) + if Serves(s) then StreamOf(c, s) else
              if s.Streams? && last then [ErrorAnswer(s.first.err.value)] else []
    {
      hide StreamOf, ServedReport, FailureReport, HealthOf, EventsOf;
      started := started + 1;
      if s.ClientGone? {
        Cancel(i);
        return true;
      }
      if s.Streams? && s.first.err.None? {
        Relay(c, i, s);
        return true;
      }
      Fail(c, i, s);
      if s.Streams? && last {
        Put(ErrorAnswer(s.first.err.value));
        return true;
      }
      return false;
    }

    /** What client and observers hold once answer and reports are complete. */
    lemma AllTold(candidates: seq<Candidate>, scripts: seq<Script>)
      requires Valid() && |candidates| == |scripts| && reports == Reports(candidates, scripts)
      requires writes == Response(candidates, scripts)
      ensures Answered(writes, candidates, scripts)
      ensures if hasHealth then Told(health, candidates, scripts) else health == []
      ensures if hasQueue then Logged(queued, meta, candidates, scripts) else queued == []
    {
      hide Reports, Told, Logged, HealthOf, EventsOf, Response, Answered;
      AnswerTrue(candidates, scripts);
      HealthTrue(candidates, scripts);
      LogTrue(meta, candidates, scripts);
    }

    /** Try the candidates in order until one serves, the client leaves, or none is left. */
    method StreamWithFallback(candidates: seq<Candidate>, scripts: seq<Script>)
      requires Valid() && |candidates| == |scripts|
      requires writes == [] && started == 0 && cancelled == [] && reports == []
      modifies this
      ensures Valid()
      ensures !flushable ==> writes == [JsonError(500, "streaming_unavailable")] && started == 0 && cancelled == []
                             && reports == []
      ensures flushable ==>
                && writes == Response(candidates, scripts)
                && reports == Reports(candidates, scripts)
                && started == Attempts(scripts) && cancelled == Naturals(started)
      ensures flushable ==> Answered(writes, candidates, scripts)
      ensures flushable ==> if hasHealth then Told(health, candidates, scripts) else health == []
      ensures flushable ==> if hasQueue then Logged(queued, meta, candidates, scripts) else queued == []
    {
      hide StreamOf, ServedReport, FailureReport, HealthOf, EventsOf, StopAt, Attempts, Reports, Response, AllFailed,
          Valid, ErrorAnswer;
      if !flushable {
        Put(JsonError(500, "streaming_unavailable"));
        return;
      }
      assert AllFailed(candidates, scripts, reports, 0) by { NoneFailed(candidates, scripts); }
      for i := 0 to |candidates|
        invariant Valid() && writes == [] && started == i && cancelled == Naturals(i)
        invariant 0 < i == |candidates| ==> !scripts[i - 1].Streams?
        invariant AllFailed(candidates, scripts, reports, i)
      {
        ghost var before := reports;
        assert Naturals(i) + [i] == Naturals(i + 1);
        OneMoreFailed(candidates, scripts, before, i);
        var done := Try(candidates[i], i, scripts[i], i + 1 == |candidates|);
        if done {
          if scripts[i].ClientGone? || Serves(scripts[i]) {
            StopsAt(candidates, scripts, i, before);
          } else {
            StopsAt(candidates, scripts, |scripts|, reports);
          }
          AllTold(candidates, scripts);
          return;
        }
      }
      StopsAt(candidates, scripts, |scripts|, reports);
      Put(JsonError(502, "provider_error"));
      AllTold(candidates, scripts);
    }
  }

  // ---------------------------------------------------------------- what every run keeps

  predicate IsStream(ws: seq<Write>) {
    ws != [] && ws[0].StreamHeader? && forall i :: 0 < i < |ws| ==> ws[i].Data? || ws[i].DoneMark? || ws[i].ErrorMark?
  }

  lemma {:induction false} PayloadsAreData(chunks: seq<Chunk>)
    ensures forall i :: 0 <= i < |Payloads(chunks)| ==> Payloads(chunks)[i].Data? && Payloads(chunks)[i].payload != ""
  {
    if chunks != [] {
      PayloadsAreData(chunks[..|chunks| - 1]);
    }
  }

  /**
   The client gets exactly one of three things: nothing (only when it left), one
   error object, or one stream, from one candidate, in which payloads come before
   at most one terminator.
   */
  lemma OneAnswer(candidates: seq<Candidate>, scripts: seq<Script>)
    requires |candidates| == |scripts|
    ensures var ws, stop := Response(candidates, scripts), StopAt(scripts);
            && (ws == [] <==> stop < |scripts| && scripts[stop].ClientGone?)
            && ((|ws| == 1 && ws[0].JsonError?) <==> stop == |scripts|)
            && (IsStream(ws) <==> stop < |scripts| && Serves(scripts[stop]))
            && (IsStream(ws) ==> ws[0].modelId == candidates[stop].modelId)
            && (IsStream(ws) ==> forall i :: 0 < i < |ws| - 1 ==> ws[i].Data? && ws[i].payload != "")
  {
    var stop := StopAt(scripts);
    if stop < |scripts| && Serves(scripts[stop]) {
      var chunks := AllChunks(scripts[stop]);
      PayloadsAreData(chunks[..EndOf(chunks)]);
    }
  }

  /** Success of a report: the stream ended without an error. */
  predicate Succeeded(r: Report) { r.error.None? }

  /**
   Reports carry indices 0, 1, 2, ... ; all but the last are failures; there is one
   for each attempt except the one that lost the client; and the last is a success
   exactly when a candidate served without an error in its stream.
   */
  lemma ReportsInOrder(candidates: seq<Candidate>, scripts: seq<Script>)
    requires |candidates| == |scripts|
    ensures var rs, stop := Reports(candidates, scripts), StopAt(scripts);
            && (forall i :: 0 <= i < |rs| ==> rs[i].index == i && rs[i].candidate == candidates[i])
            && (forall i :: 0 <= i < |rs| - 1 ==> !Succeeded(rs[i]))
            && |rs| == Attempts(scripts) - (if stop < |scripts| && scripts[stop].ClientGone? then 1 else 0)
            && (rs != [] && Succeeded(rs[|rs| - 1]) <==>
                  stop < |scripts| && Serves(scripts[stop]) && StreamError(AllChunks(scripts[stop])).None?)
  {
  }

  /** No candidate after the one that serves is attempted, and none before it served. */
  lemma NoFallbackAfterService(scripts: seq<Script>, j: nat)
    requires j < |scripts| && Serves(scripts[j]) && forall i :: 0 <= i < j
                                                                ==> !Serves(scripts[i]) && !scripts[i].ClientGone?
    ensures StopAt(scripts) == j && Attempts(scripts) == j + 1
  {
    var stop := StopAt(scripts);
    assert !(stop < j) && !(j < stop);
  }

  /** A stream that holds no end mark and no error: the provider just closed its channel. */
  predicate ClosesSilently(s: Script) { s.Streams? && EndOf(AllChunks(s)) == |AllChunks(s)| }

  lemma TerminatorShown(c: Candidate, s: Script)
    requires Serves(s)
    ensures var n := EndOf(AllChunks(s));
            && (DoneMark in StreamOf(c, s) <==> n < |AllChunks(s)| && AllChunks(s)[n].err.None?)
            && (ClosesSilently(s) ==> forall w :: w in StreamOf(c, s) ==> w.StreamHeader? || w.Data?)
  {
    hide Payloads, EndOf;
    var chunks := AllChunks(s);
    PayloadsAreData(chunks[..EndOf(chunks)]);
    assert forall w :: w in StreamOf(c, s)
                       <==> w == StreamHeader(c.modelId) || w in Payloads(chunks[..EndOf(chunks)])
                            || w in Terminator(chunks);
  }

  /**
   Of all attempts that serve, those recorded as a success did show the client the
   end mark, except exactly those whose provider just closed its channel: these are
   recorded as a success and show the client nothing but payloads.
   */
  lemma SilentCloseIsSuccess(c: Candidate, s: Script, i: nat)
    requires Serves(s)
    ensures Succeeded(ServedReport(c, s, i)) <==> DoneMark in StreamOf(c, s) || ClosesSilently(s)
    ensures !(DoneMark in StreamOf(c, s) && ClosesSilently(s))
    ensures ClosesSilently(s) ==> forall w :: w in StreamOf(c, s) ==> w.StreamHeader? || w.Data?
  {
    hide StreamOf, Usage, ReadChunks;
    TerminatorShown(c, s);
  }

  /** The smallest such attempt: one chunk and a closed channel. */
  lemma OneChunkClosesSilently(chunk: Chunk)
    requires chunk.err.None? && !chunk.done
    ensures ClosesSilently(Streams(chunk, []))
  {
    assert AllChunks(Streams(chunk, []))[1..] == [];
  }
}
