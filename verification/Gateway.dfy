/**
 The AI gateway: policy, one provider call, the optional fallback, and the metering of each call.
 What a provider, the metering table and the quota counter do at each call is a parameter, so the
 results hold of every behaviour. The journal is history.
 */
module Gateway {
  import opened Wrappers

  type Provider = string
  type Model = string

  /** Providers under a contract of zero retention. */
  const ZERO_RETENTION_PROVIDERS := {"mistral"}

  datatype Policy = Policy(
    defaultProvider: Provider, defaultModel: Model, allowed: set<Provider>, zeroRetention: bool,
    fallbackProvider: Option<Provider>, fallbackModel: Option<Model>, ownKeys: map<Provider, string>)

  datatype PolicyError = NotAllowed | NotZeroRetention

  datatype Tokens = Tokens(input: int, output: int, cached: int)

  /** The usage block of an answer, each count of which may be missing; reading one that is not a number raises. */
  datatype RawUsage =
    | Absent
    | Reported(prompt: Option<int>, completion: Option<int>, cachedPrompt: Option<int>)
    | Unreadable(error: string)

  datatype Status = Success | Timeout | Failure

  datatype Outcome = Answer(raw: RawUsage) | TimedOut | Raised(kind: string) | Cancelled

  datatype Chunk = Chunk(delta: string, raw: RawUsage)

  /** How the provider's stream ends after its chunks, `Cut` being the cancellation of the task. */
  datatype Ending = Complete | Broken(kind: string) | Cut

  /** `patience` is how many deltas the consumer takes before closing the stream, if it does. */
  datatype Call =
    | Once(policy: Policy, provider: Provider, model: Model, outcome: Outcome)
    | Streamed(policy: Policy, provider: Provider, model: Model, chunks: seq<Chunk>, ending: Ending,
               patience: Option<nat>)

  datatype Record = Record(provider: Provider, model: Model, status: Status, usage: Tokens, errorKind: Option<string>)

  /** `records` are the metering attempts, `events` those that were stored, `told` what the quota was told. */
  datatype Journal = Journal(calls: seq<Call>, records: seq<Record>, events: seq<Record>, told: seq<int>)

  datatype Env = Env(
    platformKey: Provider -> string, outcome: nat -> Outcome, chunks: nat -> seq<Chunk>, ending: nat -> Ending,
    insertFails: nat -> bool, quotaFails: nat -> bool)

  datatype End =
    | Answered(provider: Provider, model: Model, usage: Tokens)
    | Refused(error: PolicyError)
    | Unavailable
    | ProviderFailed
    | WasCancelled
    | UsageUnreadable
    | QuotaFailed
    | StreamEnded(deltas: seq<string>)
    | NotStarted

  // --- Policy ---

  function OrDefault(asked: Option<string>, byDefault: string): string {
    if asked.None? || asked.value == "" then byDefault else asked.value
  }

  predicate Permitted(policy: Policy, provider: Provider) {
    && (policy.allowed != {} ==> provider in policy.allowed)
    && (policy.zeroRetention ==> provider in ZERO_RETENTION_PROVIDERS)
  }

  function Select(policy: Policy, provider: Option<Provider>, model: Option<Model>)
    : (r: Result<(Provider, Model), PolicyError>)
    ensures r.Ok? <==> Permitted(policy, OrDefault(provider, policy.defaultProvider))
    ensures r.Ok? ==> Permitted(policy, r.value.0) && r.value.1 == OrDefault(model, policy.defaultModel)
    ensures r.Ok? && provider.Some? && provider.value != "" ==> r.value.0 == provider.value
  {
    var resolved := OrDefault(provider, policy.defaultProvider);
    if policy.allowed != {} && resolved !in policy.allowed then Err(NotAllowed)
    else if policy.zeroRetention && resolved !in ZERO_RETENTION_PROVIDERS then Err(NotZeroRetention)
    else Ok((resolved, OrDefault(model, policy.defaultModel)))
  }

  /** The tenant's own key, else the platform's; an empty key is no key. */
  predicate HasKey(env: Env, policy: Policy, provider: Provider) {
    (provider in policy.ownKeys && policy.ownKeys[provider] != "") || env.platformKey(provider) != ""
  }

  // --- Metering ---

  function OrZero(count: Option<int>): int {
    if count.Some? then count.value else 0
  }

  const NO_TOKENS := Tokens(0, 0, 0)

  function UsageFrom(raw: RawUsage): Tokens
    requires !raw.Unreadable?
  {
    match raw
    case Absent => NO_TOKENS
    case Reported(prompt, completion, cachedPrompt) => Tokens(OrZero(prompt), OrZero(completion), OrZero(cachedPrompt))
  }

  function Total(record: Record): int {
    record.usage.input + record.usage.output
  }

  /** The journal after one metering attempt, and whether it raised: only the quota can. */
  function Metered(env: Env, j: Journal, record: Record): (Journal, bool) {
    var k := |j.records|;
    (j.(records := j.records + [record],
        events := if env.insertFails(k) then j.events else j.events + [record],
        told := if Total(record) > 0 then j.told + [Total(record)] else j.told),
     Total(record) > 0 && env.quotaFails(k))
  }

  // --- One call, and the chat with its fallback ---

  function OneCall(env: Env, j: Journal, policy: Policy, provider: Provider, model: Model): (Journal, End) {
    if !HasKey(env, policy, provider) then (j, Unavailable)
    else
      var outcome := env.outcome(|j.calls|);
      var called := j.(calls := j.calls + [Once(policy, provider, model, outcome)]);
      match outcome
      case Cancelled => (called, WasCancelled)
      case TimedOut =>
        (Metered(env, called, Record(provider, model, Timeout, NO_TOKENS, Some("timeout"))).0, ProviderFailed)
      case Raised(kind) =>
        (Metered(env, called, Record(provider, model, Failure, NO_TOKENS, Some(kind))).0, ProviderFailed)
      case Answer(Unreadable(_)) => (called, UsageUnreadable)   // read outside the handler: no record
      case Answer(raw) =>
        var (metered, broke) := Metered(env, called, Record(provider, model, Success, UsageFrom(raw), None));
        (metered, if broke then QuotaFailed else Answered(provider, model, UsageFrom(raw)))
  }

  function Embed(env: Env, j: Journal, policy: Policy, provider: Option<Provider>, model: Option<Model>)
    : (Journal, End)
  {
    match Select(policy, provider, model)
    case Err(error) => (j, Refused(error))
    case Ok((p, m)) => OneCall(env, j, policy, p, m)
  }

  function Chat(env: Env, j: Journal, policy: Policy, provider: Option<Provider>, model: Option<Model>)
    : (Journal, End)
  {
    var (j', end) := Embed(env, j, policy, provider, model);
    if !(end.Unavailable? || end.ProviderFailed?) || policy.fallbackProvider.None? then (j', end)
    else Embed(env, j', policy, policy.fallbackProvider, policy.fallbackModel)
  }

  // --- Streams ---

  datatype StreamSummary = StreamSummary(deltas: seq<string>, usage: Tokens, status: Status, errorKind: Option<string>)

  function DeltaOf(chunk: Chunk): seq<string> {
    if chunk.delta != "" then [chunk.delta] else []
  }

  function After(deltas: seq<string>, later: StreamSummary): StreamSummary {
    later.(deltas := deltas + later.deltas)
  }

  lemma AfterTwice(a: seq<string>, b: seq<string>, later: StreamSummary)
    ensures After(a, After(b, later)) == After(a + b, later)
  {
    assert a + (b + later.deltas) == (a + b) + later.deltas;
  }

  /** What the chunks from here on give, after `usage` was seen last. */
  function Stream(chunks: seq<Chunk>, ending: Ending, patience: Option<nat>, usage: Tokens): StreamSummary
    requires patience != Some(0)
    decreases chunks
  {
    if chunks == [] then
      match ending
      case Broken(kind) => StreamSummary([], usage, Failure, Some(kind))
      case _ => StreamSummary([], usage, Success, None)
    else if chunks[0].delta != "" && patience == Some(1) then
      StreamSummary([chunks[0].delta], usage, Failure, Some("stream_interrupted"))
    else if chunks[0].raw.Unreadable? then
      StreamSummary(DeltaOf(chunks[0]), usage, Failure, Some(chunks[0].raw.error))
    else
      After(DeltaOf(chunks[0]), Stream(chunks[1..], ending, Waiting(patience, chunks[0]), LastSeen(usage, chunks[0])))
  }

  function Waiting(patience: Option<nat>, chunk: Chunk): Option<nat>
    requires patience != Some(0)
  {
    if patience.Some? && chunk.delta != "" then Some(patience.value - 1) else patience
  }

  function LastSeen(usage: Tokens, chunk: Chunk): Tokens
    requires !chunk.raw.Unreadable?
  {
    if Counts(chunk) then UsageFrom(chunk.raw) else usage
  }

  predicate Counts(chunk: Chunk)
    requires !chunk.raw.Unreadable?
  {
    UsageFrom(chunk.raw).input != 0 || UsageFrom(chunk.raw).output != 0
  }

  function ChatStream(env: Env, j: Journal, policy: Policy, provider: Option<Provider>, model: Option<Model>,
                      patience: Option<nat>): (Journal, End)
  {
    if patience == Some(0) then (j, NotStarted)
    else
      match Select(policy, provider, model)
      case Err(error) => (j, Refused(error))
      case Ok((p, m)) =>
        if !HasKey(env, policy, p) then (j, Unavailable)
        else
          var k := |j.calls|;
          var called := j.(calls := j.calls + [Streamed(policy, p, m, env.chunks(k), env.ending(k), patience)]);
          var summary := Stream(env.chunks(k), env.ending(k), patience, NO_TOKENS);
          (Metered(env, called, Record(p, m, summary.status, summary.usage, summary.errorKind)).0,
           StreamEnded(summary.deltas))
  }

  /**
   The whole stream gives `whole`, of which `deltas` were handed out up to chunk `i`, with `left`
   more to take and `usage` seen last.
   */
  predicate ReadUpTo(whole: StreamSummary, chunks: seq<Chunk>, ending: Ending, i: nat, deltas: seq<string>,
                     left: Option<nat>, usage: Tokens)
    requires i <= |chunks| && left != Some(0)
  {
    whole == After(deltas, Stream(chunks[i..], ending, left, usage))
  }

  lemma ReadOn(whole: StreamSummary, chunks: seq<Chunk>, ending: Ending, i: nat, deltas: seq<string>, left: Option<nat>,
               usage: Tokens)
    requires i < |chunks| && left != Some(0) && ReadUpTo(whole, chunks, ending, i, deltas, left, usage)
    ensures if chunks[i].delta != "" && left == Some(1) then
              whole == StreamSummary(deltas + [chunks[i].delta], usage, Failure, Some("stream_interrupted"))
            else if chunks[i].raw.Unreadable? then
              whole == StreamSummary(deltas + DeltaOf(chunks[i]), usage, Failure, Some(chunks[i].raw.error))
            else
              ReadUpTo(whole, chunks, ending, i + 1, deltas + DeltaOf(chunks[i]), Waiting(left, chunks[i]),
                       LastSeen(usage, chunks[i]))
  {
    assert chunks[i..][1..] == chunks[i + 1..];
    if !(chunks[i].delta != "" && left == Some(1)) && !chunks[i].raw.Unreadable? {
      AfterTwice(deltas, DeltaOf(chunks[i]),
                 Stream(chunks[i + 1..], ending, Waiting(left, chunks[i]), LastSeen(usage, chunks[i])));
    }
  }

  lemma ReadAll(whole: StreamSummary, chunks: seq<Chunk>, ending: Ending, deltas: seq<string>, left: Option<nat>,
                usage: Tokens)
    requires left != Some(0) && ReadUpTo(whole, chunks, ending, |chunks|, deltas, left, usage)
    ensures whole == Finished(ending, deltas, usage)
  {
    assert chunks[|chunks|..] == [] && deltas + [] == deltas;
  }

  function Finished(ending: Ending, deltas: seq<string>, usage: Tokens): StreamSummary {
    if ending.Broken? then StreamSummary(deltas, usage, Failure, Some(ending.kind))
    else StreamSummary(deltas, usage, Success, None)
  }

  /**
   The loop over the chunks: its deltas, the last usage seen, and why it stopped before the end, if
   it did: the consumer closed the stream, or a usage could not be read.
   */
  method Consume(chunks: seq<Chunk>, ending: Ending, patience: Option<nat>)
    returns (deltas: seq<string>, usage: Tokens, stopped: Option<string>)
    requires patience != Some(0)
    ensures Stream(chunks, ending, patience, NO_TOKENS)
            == if stopped.Some? then StreamSummary(deltas, usage, Failure, stopped) else Finished(ending, deltas, usage)
  {
    ghost var whole := Stream(chunks, ending, patience, NO_TOKENS);
    deltas, usage := [], NO_TOKENS;
    var left := patience;
    assert chunks[0..] == chunks;
    for i := 0 to |chunks|
      invariant left != Some(0) && ReadUpTo(whole, chunks, ending, i, deltas, left, usage)
    {
      var chunk := chunks[i];
      ReadOn(whole, chunks, ending, i, deltas, left, usage);
      if chunk.delta != "" {
        deltas := deltas + [chunk.delta];
        if left == Some(1) {
          return deltas, usage, Some("stream_interrupted");
        }
      }
      if chunk.raw.Unreadable? {
        return deltas, usage, Some(chunk.raw.error);
      }
      left := Waiting(left, chunk);
      usage := LastSeen(usage, chunk);
    }
    ReadAll(whole, chunks, ending, deltas, left, usage);
    stopped := None;
  }

  // --- The gateway, in place ---

  class AIGateway {
    const env: Env
    var calls: seq<Call>
    var records: seq<Record>
    var events: seq<Record>
    var told: seq<int>

    constructor (env: Env)
      ensures this.env == env && View() == Journal([], [], [], [])
    {
      this.env := env;
      calls, records, events, told := [], [], [], [];
    }

    ghost function View(): Journal
      reads this
    {
      Journal(calls, records, events, told)
    }

    /** A failed insert is logged, not raised; a failed quota update is raised. */
    method MeterWrap(provider: Provider, model: Model, status: Status, usage: Tokens, errorKind: Option<string>)
      returns (broke: bool)
      modifies this`records, this`events, this`told
      ensures (View(), broke) == Metered(env, old(View()), Record(provider, model, status, usage, errorKind))
    {
      var k := |records|;
      var record := Record(provider, model, status, usage, errorKind);
      records := records + [record];
      if !env.insertFails(k) {
        events := events + [record];
      }
      broke := false;
      var totalTokens := usage.input + usage.output;
      if totalTokens > 0 {
        told := told + [totalTokens];
        broke := env.quotaFails(k);
      }
    }

    method CallOnce(policy: Policy, provider: Provider, model: Model) returns (end: End)
      modifies this
      ensures (View(), end) == OneCall(env, old(View()), policy, provider, model)
    {
      if !HasKey(env, policy, provider) {
        return Unavailable;
      }
      var outcome := env.outcome(|calls|);
      calls := calls + [Once(policy, provider, model, outcome)];
      match outcome {
        case Cancelled =>
          end := WasCancelled;
        case TimedOut =>
          var _ := MeterWrap(provider, model, Timeout, NO_TOKENS, Some("timeout"));
          end := ProviderFailed;
        case Raised(kind) =>
          var _ := MeterWrap(provider, model, Failure, NO_TOKENS, Some(kind));
          end := ProviderFailed;
        case Answer(raw) =>
          if raw.Unreadable? {
            return UsageUnreadable;
          }
          var usage := UsageFrom(raw);
          var broke := MeterWrap(provider, model, Success, usage, None);
          end := if broke then QuotaFailed else Answered(provider, model, usage);
      }
    }

    /** Asks the selected provider, then the fallback when that failed. */
    method Ask(policy: Policy, provider: Option<Provider>, model: Option<Model>) returns (end: End)
      modifies this
      ensures (View(), end) == Chat(env, old(View()), policy, provider, model)
    {
      var selected := Select(policy, provider, model);
      if selected.Err? {
        return Refused(selected.error);
      }
      end := CallOnce(policy, selected.value.0, selected.value.1);
      if (end.Unavailable? || end.ProviderFailed?) && policy.fallbackProvider.Some? {
        var fallback := Select(policy, policy.fallbackProvider, policy.fallbackModel);
        if fallback.Err? {
          return Refused(fallback.error);
        }
        end := CallOnce(policy, fallback.value.0, fallback.value.1);
      }
    }

    /** Hands out the deltas, keeps the last usage seen, and meters once, however the stream ends. */
    method AskStream(policy: Policy, provider: Option<Provider>, model: Option<Model>, patience: Option<nat>)
      returns (end: End)
      modifies this
      ensures (View(), end) == ChatStream(env, old(View()), policy, provider, model, patience)
    {
      if patience == Some(0) {
        return NotStarted;
      }
      var selected := Select(policy, provider, model);
      if selected.Err? {
        return Refused(selected.error);
      }
      if !HasKey(env, policy, selected.value.0) {
        return Unavailable;
      }
      var chunks, ending := env.chunks(|calls|), env.ending(|calls|);
      calls := calls + [Streamed(policy, selected.value.0, selected.value.1, chunks, ending, patience)];
      var deltas, usage, stopped := Consume(chunks, ending, patience);
      var status, errorKind := Success, None;
      if stopped.Some? {
        status, errorKind := Failure, stopped;
      } else if ending.Broken? {
        status, errorKind := Failure, Some(ending.kind);
      }
      var _ := MeterWrap(selected.value.0, selected.value.1, status, usage, errorKind);
      end := StreamEnded(deltas);
    }
  }

  // --- Runs ---

  datatype Request =
    | ChatRequest(policy: Policy, provider: Option<Provider>, model: Option<Model>)
    | EmbedRequest(policy: Policy, provider: Option<Provider>, model: Option<Model>)
    | StreamRequest(policy: Policy, provider: Option<Provider>, model: Option<Model>, patience: Option<nat>)

  function Serve(env: Env, j: Journal, request: Request): (Journal, End) {
    match request
    case ChatRequest(policy, provider, model) => Chat(env, j, policy, provider, model)
    case EmbedRequest(policy, provider, model) => Embed(env, j, policy, provider, model)
    case StreamRequest(policy, provider, model, patience) => ChatStream(env, j, policy, provider, model, patience)
  }

  const EMPTY := Journal([], [], [], [])

  function ServeAll(env: Env, requests: seq<Request>): Journal {
    if requests == [] then EMPTY
    else Serve(env, ServeAll(env, requests[..|requests| - 1]), requests[|requests| - 1]).0
  }

  // --- What the metering should be, said of the calls alone ---

  /** A call outside a stream that was cancelled, or whose answer's usage could not be read. */
  predicate Unmetered(call: Call) {
    call.Once? && (call.outcome.Cancelled? || (call.outcome.Answer? && call.outcome.raw.Unreadable?))
  }

  /** The one record any other call must leave. */
  function RecordOf(call: Call): Record
    requires !Unmetered(call)
    requires call.Streamed? ==> call.patience != Some(0)
  {
    match call
    case Once(_, p, m, Answer(raw)) => Record(p, m, Success, UsageFrom(raw), None)
    case Once(_, p, m, TimedOut) => Record(p, m, Timeout, NO_TOKENS, Some("timeout"))
    case Once(_, p, m, Raised(kind)) => Record(p, m, Failure, NO_TOKENS, Some(kind))
    case Streamed(_, p, m, chunks, ending, patience) =>
      var summary := Stream(chunks, ending, patience, NO_TOKENS);
      Record(p, m, summary.status, summary.usage, summary.errorKind)
  }

  function RecordsOf(calls: seq<Call>): seq<Record>
    requires forall c :: c in calls && c.Streamed? ==> c.patience != Some(0)
  {
    if calls == [] then []
    else
      var c := calls[|calls| - 1];
      RecordsOf(calls[..|calls| - 1]) + if Unmetered(c) then [] else [RecordOf(c)]
  }

  function UnmeteredCount(calls: seq<Call>): nat {
    if calls == [] then 0
    else UnmeteredCount(calls[..|calls| - 1]) + if Unmetered(calls[|calls| - 1]) then 1 else 0
  }

  function PositiveTotals(records: seq<Record>): seq<int> {
    if records == [] then []
    else
      var r := records[|records| - 1];
      PositiveTotals(records[..|records| - 1]) + if Total(r) > 0 then [Total(r)] else []
  }

  predicate Started(calls: seq<Call>) {
    forall c :: c in calls && c.Streamed? ==> c.patience != Some(0)
  }

  predicate CallPermitted(call: Call) {
    Permitted(call.policy, call.provider)
  }

  predicate InOrder(j: Journal) {
    && Started(j.calls)
    && j.records == RecordsOf(j.calls)
    && |j.records| + UnmeteredCount(j.calls) == |j.calls|
    && j.told == PositiveTotals(j.records)
    && forall c :: c in j.calls ==> CallPermitted(c)
  }

  lemma CallAndRecord(env: Env, j: Journal, call: Call)
    requires InOrder(j) && CallPermitted(call) && !Unmetered(call)
    requires call.Streamed? ==> call.patience != Some(0)
    ensures InOrder(Metered(env, j.(calls := j.calls + [call]), RecordOf(call)).0)
  {
    var calls := j.calls + [call];
    var records := j.records + [RecordOf(call)];
    assert calls[..|calls| - 1] == j.calls;
    assert records[..|records| - 1] == j.records;
  }

  lemma CallWithoutRecord(j: Journal, call: Call)
    requires InOrder(j) && CallPermitted(call) && Unmetered(call)
    ensures InOrder(j.(calls := j.calls + [call]))
  {
    var calls := j.calls + [call];
    assert calls[..|calls| - 1] == j.calls;
  }

  lemma OneCallInOrder(env: Env, j: Journal, policy: Policy, provider: Provider, model: Model)
    requires InOrder(j) && Permitted(policy, provider)
    ensures InOrder(OneCall(env, j, policy, provider, model).0)
  {
    var call := Once(policy, provider, model, env.outcome(|j.calls|));
    if Unmetered(call) {
      CallWithoutRecord(j, call);
    } else {
      CallAndRecord(env, j, call);
    }
  }

  lemma EmbedInOrder(env: Env, j: Journal, policy: Policy, provider: Option<Provider>, model: Option<Model>)
    requires InOrder(j)
    ensures InOrder(Embed(env, j, policy, provider, model).0)
  {
    var selected := Select(policy, provider, model);
    if selected.Ok? {
      OneCallInOrder(env, j, policy, selected.value.0, selected.value.1);
    }
  }

  lemma ServeInOrder(env: Env, j: Journal, request: Request)
    requires InOrder(j)
    ensures InOrder(Serve(env, j, request).0)
  {
    var policy := request.policy;
    match request {
      case EmbedRequest(_, provider, model) =>
        EmbedInOrder(env, j, policy, provider, model);
      case ChatRequest(_, provider, model) =>
        EmbedInOrder(env, j, policy, provider, model);
        EmbedInOrder(env, Embed(env, j, policy, provider, model).0, policy, policy.fallbackProvider,
                     policy.fallbackModel);
      case StreamRequest(_, provider, model, patience) =>
        var selected := Select(policy, provider, model);
        if selected.Ok? && patience != Some(0) {
          var k := |j.calls|;
          CallAndRecord(env, j,
                        Streamed(policy, selected.value.0, selected.value.1, env.chunks(k), env.ending(k), patience));
        }
    }
  }

  // --- Main results ---

  /**
   Over every sequence of requests and every behaviour: each provider call, fallbacks included, is
   permitted by the policy it was made under; the metering attempts are, in order, the records owed
   by the calls but for the unmetered ones; and the quota is told exactly their positive totals,
   whether or not the insert succeeded.
   */
  lemma {:induction false} EveryCallIsPermittedAndMetered(env: Env, requests: seq<Request>)
    ensures var j := ServeAll(env, requests);
            && (forall c :: c in j.calls ==> Permitted(c.policy, c.provider))
            && Started(j.calls)
            && j.records == RecordsOf(j.calls)
            && j.told == PositiveTotals(j.records)
            && |j.records| + UnmeteredCount(j.calls) == |j.calls|
  {
    InOrderAlways(env, requests);
    forall c | c in ServeAll(env, requests).calls
      ensures Permitted(c.policy, c.provider)
    {
      assert CallPermitted(c);
    }
  }

  lemma {:induction false} InOrderAlways(env: Env, requests: seq<Request>)
    ensures InOrder(ServeAll(env, requests))
  {
    if requests != [] {
      InOrderAlways(env, requests[..|requests| - 1]);
      ServeInOrder(env, ServeAll(env, requests[..|requests| - 1]), requests[|requests| - 1]);
    }
  }

  lemma {:induction false} NoneUnmetered(calls: seq<Call>)
    ensures UnmeteredCount(calls) == 0 <==> forall c :: c in calls ==> !Unmetered(c)
  {
    if calls != [] {
      var shorter := calls[..|calls| - 1];
      NoneUnmetered(shorter);
      assert calls == shorter + [calls[|calls| - 1]];
    }
  }

  /**
   There are as many metering attempts as provider calls exactly when no call outside a stream was
   cancelled or gave a usage that could not be read.
   */
  lemma AllMeteredIff(env: Env, requests: seq<Request>)
    ensures var j := ServeAll(env, requests);
            |j.records| == |j.calls| <==> forall c :: c in j.calls ==> !Unmetered(c)
  {
    InOrderAlways(env, requests);
    NoneUnmetered(ServeAll(env, requests).calls);
  }

  /**
   A chat that returns an answer names the provider and model of the last call and of the last
   record, which is a success with the same usage. Whatever its end, a chat makes at most two
   calls, the second only after a first that timed out or failed.
   */
  lemma AnswerNamesTheLastRecord(env: Env, j: Journal, policy: Policy, provider: Option<Provider>, model: Option<Model>)
    ensures var (j', end) := Chat(env, j, policy, provider, model);
            var added := |j'.calls| - |j.calls|;
            && 0 <= added <= 2 && j'.calls[..|j.calls|] == j.calls
            && (added == 2 ==> j'.calls[|j.calls|].Once?
                               && (j'.calls[|j.calls|].outcome.TimedOut? || j'.calls[|j.calls|].outcome.Raised?))
            && (end.Answered? ==>
                  && added >= 1 && |j'.records| > |j.records|
                  && var call := j'.calls[|j'.calls| - 1];
                     && call.Once? && call.provider == end.provider && call.model == end.model
                     && call.outcome.Answer? && !call.outcome.raw.Unreadable?
                     && UsageFrom(call.outcome.raw) == end.usage
                     && j'.records[|j'.records| - 1] == Record(end.provider, end.model, Success, end.usage, None)
                     && Permitted(policy, end.provider))
  {
    var first := Embed(env, j, policy, provider, model);
    EmbedShape(env, j, policy, provider, model);
    EmbedShape(env, first.0, policy, policy.fallbackProvider, policy.fallbackModel);
  }

  /** `after` is `before` with at most one more call, and an answer with its record. */
  predicate OneMore(before: Journal, after: Journal, end: End, policy: Policy) {
    && (after.calls == before.calls
        || (|after.calls| == |before.calls| + 1 && after.calls[..|before.calls|] == before.calls
            && after.calls[|before.calls|].Once?))
    && (end.ProviderFailed? ==> |after.calls| > |before.calls|
                                && (after.calls[|before.calls|].outcome.TimedOut?
                                    || after.calls[|before.calls|].outcome.Raised?))
    && (end.Unavailable? ==> after.calls == before.calls)
    && |after.records| >= |before.records|
    && (end.Answered? ==>
          && |after.calls| > |before.calls| && |after.records| > |before.records|
          && var call := after.calls[|before.calls|];
             && call.provider == end.provider && call.model == end.model
             && call.outcome.Answer? && !call.outcome.raw.Unreadable? && UsageFrom(call.outcome.raw) == end.usage
             && after.records[|after.records| - 1] == Record(end.provider, end.model, Success, end.usage, None)
             && Permitted(policy, end.provider))
  }

  lemma EmbedShape(env: Env, j: Journal, policy: Policy, provider: Option<Provider>, model: Option<Model>)
    ensures OneMore(j, Embed(env, j, policy, provider, model).0, Embed(env, j, policy, provider, model).1, policy)
  {
  }

  // --- What a chat does, from the policy and the world alone ---

  /** The name asked for, or the policy's own when none or an empty one is. */
  predicate Resolves(asked: Option<string>, own: string, name: string) {
    (asked in {None, Some("")} && name == own) || (asked == Some(name) && name != "")
  }

  /** A key of the tenant's own or of the platform, that is not empty. */
  predicate Keyed(env: Env, policy: Policy, provider: Provider) {
    env.platformKey(provider) != "" || exists key :: key in policy.ownKeys.Items && key.0 == provider && key.1 != ""
  }

  predicate Counted(raw: RawUsage, usage: Tokens) {
    match raw
    case Absent => usage == Tokens(0, 0, 0)
    case Unreadable(_) => false
    case Reported(prompt, completion, cachedPrompt) =>
      && prompt in {None, Some(usage.input)} && (prompt.None? ==> usage.input == 0)
      && completion in {None, Some(usage.output)} && (completion.None? ==> usage.output == 0)
      && cachedPrompt in {None, Some(usage.cached)} && (cachedPrompt.None? ==> usage.cached == 0)
  }

  /** How one call to a provider with a key ends, with so many records before it. */
  ghost predicate EndsAs(env: Env, provider: Provider, model: Model, outcome: Outcome, records: nat, end: End) {
    match outcome
    case Cancelled => end == WasCancelled
    case TimedOut => end == ProviderFailed
    case Raised(_) => end == ProviderFailed
    case Answer(Unreadable(_)) => end == UsageUnreadable
    case Answer(raw) =>
      exists usage :: Counted(raw, usage)
        && end == if usage.input + usage.output > 0 && env.quotaFails(records) then QuotaFailed
                  else Answered(provider, model, usage)
  }

  lemma KeyedIff(env: Env, policy: Policy, provider: Provider)
    ensures HasKey(env, policy, provider) <==> Keyed(env, policy, provider)
  {
    if provider in policy.ownKeys {
      assert (provider, policy.ownKeys[provider]) in policy.ownKeys.Items;
    }
  }

  lemma UsageCounted(raw: RawUsage, usage: Tokens)
    requires !raw.Unreadable?
    ensures Counted(raw, usage) <==> usage == UsageFrom(raw)
  {
  }

  /** Without a key there is no call; with one there is exactly one, and its outcome decides the end. */
  lemma CallOutcome(env: Env, j: Journal, policy: Policy, provider: Provider, model: Model)
    ensures var (j', end) := OneCall(env, j, policy, provider, model);
            var outcome := env.outcome(|j.calls|);
            if !Keyed(env, policy, provider) then j' == j && end == Unavailable
            else
              && j'.calls == j.calls + [Once(policy, provider, model, outcome)]
              && EndsAs(env, provider, model, outcome, |j.records|, end)
              && (match outcome
                  case Cancelled => j'.records == j.records
                  case TimedOut =>
                    j'.records == j.records + [Record(provider, model, Timeout, Tokens(0, 0, 0), Some("timeout"))]
                  case Raised(kind) =>
                    j'.records == j.records + [Record(provider, model, Failure, Tokens(0, 0, 0), Some(kind))]
                  case Answer(Unreadable(_)) => j'.records == j.records
                  case Answer(raw) =>
                    exists usage :: Counted(raw, usage)
                      && j'.records == j.records + [Record(provider, model, Success, usage, None)])
  {
    KeyedIff(env, policy, provider);
    var outcome := env.outcome(|j.calls|);
    if outcome.Answer? && !outcome.raw.Unreadable? {
      UsageCounted(outcome.raw, UsageFrom(outcome.raw));
    }
  }

  /** A usage counts when it reports some tokens read or written. */
  lemma CountsIff(chunk: Chunk)
    requires !chunk.raw.Unreadable?
    ensures Counts(chunk) <==> chunk.raw.Reported?
                               && (chunk.raw.prompt !in {None, Some(0)} || chunk.raw.completion !in {None, Some(0)})
  {
  }

  /**
   A stream that is started is one call and one record, with the deltas and the usage of its chunks,
   whatever becomes of the metering; one that is not permitted, has no key or is closed before it
   starts is neither.
   */
  lemma StreamOutcome(env: Env, j: Journal, policy: Policy, asked: Option<Provider>, askedModel: Option<Model>,
                      patience: Option<nat>, provider: Provider, model: Model)
    requires Resolves(asked, policy.defaultProvider, provider) && Resolves(askedModel, policy.defaultModel, model)
    ensures var (j', end) := ChatStream(env, j, policy, asked, askedModel, patience);
            var k := |j.calls|;
            if patience == Some(0) then j' == j && end == NotStarted
            else if !Permitted(policy, provider) then j' == j && end.Refused?
            else if !Keyed(env, policy, provider) then j' == j && end == Unavailable
            else
              var summary := Stream(env.chunks(k), env.ending(k), patience, Tokens(0, 0, 0));
              && j'.calls == j.calls + [Streamed(policy, provider, model, env.chunks(k), env.ending(k), patience)]
              && j'.records
                 == j.records + [Record(provider, model, summary.status, summary.usage, summary.errorKind)]
              && end == StreamEnded(summary.deltas)
  {
    KeyedIff(env, policy, provider);
  }

  /** An embedding, or one leg of a chat. */
  lemma EmbedOutcome(env: Env, j: Journal, policy: Policy, asked: Option<Provider>, askedModel: Option<Model>,
                     provider: Provider, model: Model)
    requires Resolves(asked, policy.defaultProvider, provider) && Resolves(askedModel, policy.defaultModel, model)
    ensures var (j', end) := Embed(env, j, policy, asked, askedModel);
            && (!Permitted(policy, provider) ==> j' == j && end.Refused?)
            && (Permitted(policy, provider) ==> (j', end) == OneCall(env, j, policy, provider, model))
  {
  }

  /** The first call was made and failed, or could not be made for want of a key. */
  predicate FirstFails(env: Env, j: Journal, policy: Policy, provider: Provider) {
    !Keyed(env, policy, provider) || env.outcome(|j.calls|).TimedOut? || env.outcome(|j.calls|).Raised?
  }

  /**
   A chat whose provider is permitted and fails, with a fallback: the fallback's provider, if it is
   permitted too, gets the last call, if it has a key, and decides the end; otherwise the chat is
   refused, or unavailable.
   */
  lemma FallbackDecides(env: Env, j: Journal, policy: Policy, asked: Option<Provider>, askedModel: Option<Model>,
                        provider: Provider, model: Model, backup: Provider, backupModel: Model)
    requires Resolves(asked, policy.defaultProvider, provider) && Resolves(askedModel, policy.defaultModel, model)
    requires Permitted(policy, provider) && FirstFails(env, j, policy, provider) && policy.fallbackProvider.Some?
    requires Resolves(policy.fallbackProvider, policy.defaultProvider, backup)
    requires Resolves(policy.fallbackModel, policy.defaultModel, backupModel)
    ensures var (j', end) := Chat(env, j, policy, asked, askedModel);
            var k := |j.calls| + if Keyed(env, policy, provider) then 1 else 0;
            if !Permitted(policy, backup) then end.Refused? && |j'.calls| == k
            else if !Keyed(env, policy, backup) then end == Unavailable && |j'.calls| == k
            else
              && |j'.calls| == k + 1 && j'.calls[k] == Once(policy, backup, backupModel, env.outcome(k))
              && EndsAs(env, backup, backupModel, env.outcome(k), |j.records| + k - |j.calls|, end)
  {
    EmbedOutcome(env, j, policy, asked, askedModel, provider, model);
    CallOutcome(env, j, policy, provider, model);
    var first := Embed(env, j, policy, asked, askedModel);
    EmbedOutcome(env, first.0, policy, policy.fallbackProvider, policy.fallbackModel, backup, backupModel);
    CallOutcome(env, first.0, policy, backup, backupModel);
  }

  /** In every other case the first provider decides, and there is no second call. */
  lemma FirstDecides(env: Env, j: Journal, policy: Policy, asked: Option<Provider>, askedModel: Option<Model>,
                     provider: Provider, model: Model)
    requires Resolves(asked, policy.defaultProvider, provider) && Resolves(askedModel, policy.defaultModel, model)
    requires !Permitted(policy, provider) || !FirstFails(env, j, policy, provider) || policy.fallbackProvider.None?
    ensures var (j', end) := Chat(env, j, policy, asked, askedModel);
            var outcome := env.outcome(|j.calls|);
            if !Permitted(policy, provider) then j' == j && end.Refused?
            else if !Keyed(env, policy, provider) then j' == j && end == Unavailable
            else
              && j'.calls == j.calls + [Once(policy, provider, model, outcome)]
              && EndsAs(env, provider, model, outcome, |j.records|, end)
  {
    EmbedOutcome(env, j, policy, asked, askedModel, provider, model);
    CallOutcome(env, j, policy, provider, model);
  }

  /** A request is served as what it is, with its own policy, provider and model. */
  lemma RequestsAreServed(env: Env, j: Journal, policy: Policy, provider: Option<Provider>, model: Option<Model>,
                          patience: Option<nat>)
    ensures Serve(env, j, ChatRequest(policy, provider, model)) == Chat(env, j, policy, provider, model)
    ensures Serve(env, j, EmbedRequest(policy, provider, model)) == Embed(env, j, policy, provider, model)
    ensures Serve(env, j, StreamRequest(policy, provider, model, patience))
            == ChatStream(env, j, policy, provider, model, patience)
  {
  }

  /** The records whose insertion does not fail. */
  function Kept(env: Env, records: seq<Record>): seq<Record> {
    if records == [] then []
    else
      var n := |records| - 1;
      Kept(env, records[..n]) + if env.insertFails(n) then [] else [records[n]]
  }

  lemma MeteredKept(env: Env, j: Journal, record: Record)
    requires j.events == Kept(env, j.records)
    ensures var j' := Metered(env, j, record).0;
            j'.events == Kept(env, j'.records)
  {
    assert (j.records + [record])[..|j.records|] == j.records;
  }

  lemma EmbedKept(env: Env, j: Journal, policy: Policy, provider: Option<Provider>, model: Option<Model>)
    requires j.events == Kept(env, j.records)
    ensures var j' := Embed(env, j, policy, provider, model).0;
            j'.events == Kept(env, j'.records)
  {
    var j' := Embed(env, j, policy, provider, model).0;
    if j'.records != j.records {
      MeteredKept(env, j.(calls := j'.calls), j'.records[|j.records|]);
    }
  }

  /** What the usage table holds: the records, less those whose insertion failed. */
  lemma {:induction false} EventsAreTheRecordsKept(env: Env, requests: seq<Request>)
    ensures ServeAll(env, requests).events == Kept(env, ServeAll(env, requests).records)
  {
    if requests != [] {
      var j, r := ServeAll(env, requests[..|requests| - 1]), requests[|requests| - 1];
      EventsAreTheRecordsKept(env, requests[..|requests| - 1]);
      match r
      case EmbedRequest(policy, provider, model) => EmbedKept(env, j, policy, provider, model);
      case ChatRequest(policy, provider, model) =>
        EmbedKept(env, j, policy, provider, model);
        EmbedKept(env, Embed(env, j, policy, provider, model).0, policy, policy.fallbackProvider, policy.fallbackModel);
      case StreamRequest(policy, provider, model, patience) =>
        var j' := ChatStream(env, j, policy, provider, model, patience).0;
        if j'.records != j.records {
          MeteredKept(env, j.(calls := j'.calls), j'.records[|j.records|]);
        }
    }
  }

  // --- What a stream records ---

  function DeltaCount(chunks: seq<Chunk>): nat {
    if chunks == [] then 0 else DeltaCount(chunks[..|chunks| - 1]) + if chunks[|chunks| - 1].delta != "" then 1 else 0
  }

  /** The consumer closes the stream on receiving the delta of chunk `k`. */
  predicate ClosedAt(chunks: seq<Chunk>, patience: Option<nat>, k: nat) {
    k < |chunks| && patience.Some? && chunks[k].delta != "" && DeltaCount(chunks[..k]) + 1 == patience.value
  }

  predicate Readable(chunks: seq<Chunk>) {
    forall c :: c in chunks ==> !c.raw.Unreadable?
  }

  /** `usage` is the last non-zero one of the chunks, or `before` when there is none. */
  predicate IsLastUsage(chunks: seq<Chunk>, before: Tokens, usage: Tokens)
    requires Readable(chunks)
  {
    || (usage == before && forall c :: c in chunks ==> !Counts(c))
    || exists i :: 0 <= i < |chunks| && LastAt(chunks, i) && usage == UsageFrom(chunks[i].raw)
  }

  predicate LastAt(chunks: seq<Chunk>, i: nat)
    requires i < |chunks| && Readable(chunks)
  {
    Counts(chunks[i]) && forall j :: i < j < |chunks| ==> !Counts(chunks[j])
  }

  lemma {:induction false} DeltaCountFront(chunks: seq<Chunk>)
    requires chunks != []
    ensures DeltaCount(chunks) == DeltaCount(chunks[1..]) + if chunks[0].delta != "" then 1 else 0
  {
    if |chunks| > 1 {
      var shorter := chunks[..|chunks| - 1];
      DeltaCountFront(shorter);
      assert shorter[1..] == chunks[1..][..|chunks| - 2];
    }
  }

  lemma LastUsageFront(chunks: seq<Chunk>, before: Tokens, usage: Tokens)
    requires chunks != [] && Readable(chunks) && IsLastUsage(chunks[1..], LastSeen(before, chunks[0]), usage)
    ensures IsLastUsage(chunks, before, usage)
  {
    var rest := chunks[1..];
    assert chunks == [chunks[0]] + rest;
    if usage == LastSeen(before, chunks[0]) && forall c :: c in rest ==> !Counts(c) {
      if Counts(chunks[0]) {
        assert LastAt(chunks, 0);
      }
    } else {
      var i :| 0 <= i < |rest| && LastAt(rest, i) && usage == UsageFrom(rest[i].raw);
      forall j | i + 1 < j < |chunks|
        ensures !Counts(chunks[j])
      {
        assert chunks[j] == rest[j - 1];
      }
      assert LastAt(chunks, i + 1);
    }
  }

  /** What the loop does when it goes past the first chunk. */
  lemma PastFirst(chunks: seq<Chunk>, ending: Ending, patience: Option<nat>, before: Tokens)
    requires chunks != [] && patience != Some(0) && !chunks[0].raw.Unreadable?
    requires !(chunks[0].delta != "" && patience == Some(1))
    ensures Stream(chunks, ending, patience, before)
            == After(DeltaOf(chunks[0]),
                     Stream(chunks[1..], ending, Waiting(patience, chunks[0]), LastSeen(before, chunks[0])))
  {
  }

  /**
   A stream closed by its consumer at chunk `k` is recorded as a failure with the last usage seen
   before that chunk: what that chunk itself reports is lost.
   */
  lemma {:induction false} ClosedStream(chunks: seq<Chunk>, ending: Ending, patience: Option<nat>, before: Tokens,
                                        k: nat)
    requires patience != Some(0) && ClosedAt(chunks, patience, k) && Readable(chunks[..k])
    ensures var summary := Stream(chunks, ending, patience, before);
            && summary.status == Failure && summary.errorKind == Some("stream_interrupted")
            && IsLastUsage(chunks[..k], before, summary.usage) && |summary.deltas| == patience.value
    decreases chunks
  {
    if k > 0 {
      var here := chunks[..k];
      assert here[0] in here && here[0] == chunks[0];
      DeltaCountFront(here);
      assert here[1..] == chunks[1..][..k - 1];
      assert chunks[1..][k - 1] == chunks[k];
      PastFirst(chunks, ending, patience, before);
      ClosedStream(chunks[1..], ending, Waiting(patience, chunks[0]), LastSeen(before, chunks[0]), k - 1);
      LastUsageFront(here, before, Stream(chunks, ending, patience, before).usage);
    }
  }

  /**
   A stream not closed by then fails at the first chunk whose usage cannot be read, after handing out
   that chunk's delta.
   */
  lemma {:induction false} UnreadableStream(chunks: seq<Chunk>, ending: Ending, patience: Option<nat>, before: Tokens,
                                            k: nat)
    requires k < |chunks| && Readable(chunks[..k]) && chunks[k].raw.Unreadable?
    requires patience.Some? ==> DeltaCount(chunks[..k + 1]) < patience.value
    ensures var summary := Stream(chunks, ending, patience, before);
            && summary.status == Failure && summary.errorKind == Some(chunks[k].raw.error)
            && IsLastUsage(chunks[..k], before, summary.usage) && |summary.deltas| == DeltaCount(chunks[..k + 1])
    decreases chunks
  {
    DeltaCountFront(chunks[..k + 1]);
    assert chunks[..k + 1][1..] == chunks[1..][..k];
    if k > 0 {
      var here := chunks[..k];
      assert here[0] in here && here[0] == chunks[0];
      assert here[1..] == chunks[1..][..k - 1];
      PastFirst(chunks, ending, patience, before);
      UnreadableStream(chunks[1..], ending, Waiting(patience, chunks[0]), LastSeen(before, chunks[0]), k - 1);
      LastUsageFront(here, before, Stream(chunks, ending, patience, before).usage);
    }
  }

  /** Any other stream is a failure exactly when the provider broke it, with the last usage of all its chunks. */
  lemma {:induction false} UnclosedStream(chunks: seq<Chunk>, ending: Ending, patience: Option<nat>, before: Tokens)
    requires Readable(chunks) && (patience.Some? ==> DeltaCount(chunks) < patience.value)
    ensures var summary := Stream(chunks, ending, patience, before);
            && (summary.status == Success <==> !ending.Broken?) && summary.status != Timeout
            && summary.errorKind == (if ending.Broken? then Some(ending.kind) else None)
            && IsLastUsage(chunks, before, summary.usage) && |summary.deltas| == DeltaCount(chunks)
    decreases chunks
  {
    if chunks != [] {
      DeltaCountFront(chunks);
      PastFirst(chunks, ending, patience, before);
      UnclosedStream(chunks[1..], ending, Waiting(patience, chunks[0]), LastSeen(before, chunks[0]));
      LastUsageFront(chunks, before, Stream(chunks, ending, patience, before).usage);
    }
  }

  predicate UnreadableAt(chunks: seq<Chunk>, patience: Option<nat>, k: nat) {
    && k < |chunks| && Readable(chunks[..k]) && chunks[k].raw.Unreadable?
    && (patience.Some? ==> DeltaCount(chunks[..k + 1]) < patience.value)
  }

  /** Every stream is of one of these three kinds. */
  lemma {:induction false} StreamKinds(chunks: seq<Chunk>, patience: Option<nat>)
    requires patience != Some(0)
    ensures || (exists k: nat :: ClosedAt(chunks, patience, k) && Readable(chunks[..k]))
            || (exists k: nat :: UnreadableAt(chunks, patience, k))
            || (Readable(chunks) && (patience.Some? ==> DeltaCount(chunks) < patience.value))
    decreases |chunks|
  {
    if chunks != [] {
      var n := |chunks| - 1;
      var shorter := chunks[..n];
      StreamKinds(shorter, patience);
      assert forall k :: 0 <= k <= n ==> shorter[..k] == chunks[..k];
      assert chunks[..n + 1] == chunks;
      assert chunks == shorter + [chunks[n]];
      if k: nat :| ClosedAt(shorter, patience, k) && Readable(shorter[..k]) {
        assert ClosedAt(chunks, patience, k) && Readable(chunks[..k]);
      } else if k: nat :| UnreadableAt(shorter, patience, k) {
        assert UnreadableAt(chunks, patience, k);
      } else if patience.Some? && DeltaCount(chunks) == patience.value {
        assert ClosedAt(chunks, patience, n) && Readable(chunks[..n]);
      } else if chunks[n].raw.Unreadable? {
        assert UnreadableAt(chunks, patience, n);
      }
    }
  }
}
