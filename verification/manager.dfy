/** `AssistantManager` (main.py): one lazily created remote agent and conversation
    thread, the `/analyze` request on top of them, and process start-up. The SDK's
    remote calls are not modelled; what they return in one request is a parameter. */
module AssistantManager {
  import opened Wrappers
  import opened AzureConfig
  import opened Aggregation

  /** Opaque handle of an agent returned by `AzureAssistantAgent.create`. */
  datatype Agent = Agent(handle: nat)

  /** The manager's fields: its configuration, `self.agent` and `self.thread_id`. */
  datatype Manager = Manager(config: Config, agent: Option<Agent>, threadId: Option<string>)

  /** What the remote calls made while serving one request produce: the created agent or
      the error `create` raised, likewise for `create_thread`, the error `add_chat_message`
      raised if any, and the chunks `invoke_stream` delivered before it closed or raised. */
  datatype Sdk = Sdk(
    createAgent: Result<Agent, string>,
    createThread: Result<string, string>,
    addMessageError: Option<string>,
    chunks: seq<Chunk>,
    streamFailure: Option<string>)

  /** The user message posted by `add_chat_message`: the thread it went to and its text. */
  datatype Post = Post(threadId: Option<string>, text: string)

  /** The manager after one `analyze` call, the message it posted if it got that far,
      and the result or the message of the exception it raised. */
  datatype Step = Step(manager: Manager, posted: Option<Post>, result: Result<Analysis, string>)

  /** The HTTP answer of `POST /analyze`. */
  datatype Response = Ok(body: Analysis) | HttpError(status: int, detail: string)

  /** Neither field is falsy, so `analyze` skips `initialize`. */
  predicate Ready(m: Manager)
  {
    m.agent.Some? && Truthy(m.threadId)
  }

  /** `AssistantManager()` at module import: the configuration is read and validated,
      and no agent or thread exists yet; a missing variable stops the process with
      the `ValueError` message. */
  function Startup(env: Env): (r: Result<Manager, string>)
    ensures r.Success? <==> Complete(env)
    ensures r.Success? ==> r.value.agent.None? && r.value.threadId.None? && FromEnv(env) == Success(r.value.config)
    ensures r.Failure? ==> r.error == MissingMessage(Missing(env)) && Missing(env) != []
  {
    match FromEnv(env)
    case Failure(names) => Failure(MissingMessage(names))
    case Success(config) => Success(Manager(config, None, None))
  }

  /** `initialize` as written: it acts only when `self.agent` is falsy. The agent is stored
      before `create_thread` is awaited, so a failing `create_thread` leaves an agent
      without a thread. Returns the manager and the error raised, if any. */
  function InitializeAsWritten(m: Manager, sdk: Sdk): (r: (Manager, Option<string>))
    ensures r.0.config == m.config
    ensures m.agent.Some? ==> r == (m, None)
    ensures m.agent.None? && sdk.createAgent.Failure? ==> r == (m, Some(sdk.createAgent.error))
    ensures m.agent.None? && sdk.createAgent.Success? && sdk.createThread.Failure? ==>
              r == (m.(agent := Some(sdk.createAgent.value)), Some(sdk.createThread.error))
    ensures m.agent.None? && sdk.createAgent.Success? && sdk.createThread.Success? ==>
              r == (m.(agent := Some(sdk.createAgent.value), threadId := Some(sdk.createThread.value)), None)
    ensures m.agent.None? && r.1.None? ==> r.0.agent.Some? && r.0.threadId.Some?
    ensures r.0.agent != m.agent ==> sdk.createAgent.Success? && r.0.agent == Some(sdk.createAgent.value)
    ensures r.0.threadId != m.threadId ==> sdk.createThread.Success? && r.0.threadId == Some(sdk.createThread.value)
  {
    if m.agent.Some? then (m, None)
    else
      match sdk.createAgent
      case Failure(e) => (m, Some(e))
      case Success(a) =>
        var withAgent := m.(agent := Some(a));
        match sdk.createThread
        case Failure(e) => (withAgent, Some(e))
        case Success(t) => (withAgent.(threadId := Some(t)), None)
  }

  /** The rest of `analyze` once initialisation raised nothing: post the query to the
      manager's thread, then drain the stream. */
  function PostAndDrain(m: Manager, query: string, sdk: Sdk): (s: Step)
    ensures s.manager == m
    ensures s.posted == Some(Post(m.threadId, query))
    ensures sdk.addMessageError.Some? ==> s.result == Failure(sdk.addMessageError.value)
    ensures sdk.addMessageError.None? && WellFormed(sdk.chunks) && sdk.streamFailure.None? ==>
              s.result == Success(Analysis(Narrative(sdk.chunks), Cite(Collected(sdk.chunks))))
    ensures sdk.addMessageError.None? && !WellFormed(sdk.chunks) ==> s.result == Failure(IndexErrorMessage)
    ensures sdk.addMessageError.None? && WellFormed(sdk.chunks) && sdk.streamFailure.Some? ==>
              s.result == Failure(sdk.streamFailure.value)
  {
    var post := Some(Post(m.threadId, query));
    if sdk.addMessageError.Some? then Step(m, post, Failure(sdk.addMessageError.value))
    else
      match Aggregate(sdk.chunks, sdk.streamFailure)
      case Success(a) => Step(m, post, Success(a))
      case Failure(e) => Step(m, post, Failure(ErrorMessage(e)))
  }

  /** `analyze` as written: `initialize` runs when the agent or the thread id is falsy,
      but `initialize` itself only looks at the agent. */
  function AnalyzeAsWritten(m: Manager, query: string, sdk: Sdk): (s: Step)
    ensures s.manager.config == m.config
    ensures Ready(m) ==> s == PostAndDrain(m, query, sdk)
    ensures s.manager == (if Ready(m) then m else InitializeAsWritten(m, sdk).0)
    ensures s.posted.None? <==> !Ready(m) && InitializeAsWritten(m, sdk).1.Some?
    ensures s.posted.None? ==> s.result == Failure(InitializeAsWritten(m, sdk).1.value)
    ensures s.posted.Some? ==> s.result == PostAndDrain(s.manager, query, sdk).result
    ensures s.posted.Some? ==> s.posted.value.text == query && s.posted.value.threadId == s.manager.threadId
  {
    if Ready(m) then PostAndDrain(m, query, sdk)
    else
      var (m1, err) := InitializeAsWritten(m, sdk);
      if err.Some? then Step(m1, None, Failure(err.value))
      else PostAndDrain(m1, query, sdk)
  }

  /** `initialize` with the guard `analyze` evidently relies on: create the agent when it is
      missing and the thread when it is missing. */
  function Initialize(m: Manager, sdk: Sdk): (r: (Manager, Option<string>))
    ensures r.0.config == m.config
    ensures Ready(m) ==> r == (m, None)
    ensures r.1.None? ==> r.0.agent.Some? && r.0.threadId.Some?
    ensures m.agent.Some? ==> r.0.agent == m.agent
    ensures !Ready(m) && (m.agent.Some? || sdk.createAgent.Success?) && sdk.createThread.Success? ==>
              r.1.None? && r.0.threadId == Some(sdk.createThread.value)
    ensures !Ready(m) && m.agent.None? && sdk.createAgent.Failure? ==> r == (m, Some(sdk.createAgent.error))
    ensures !Ready(m) && (m.agent.Some? || sdk.createAgent.Success?) && sdk.createThread.Failure? ==>
              r.1 == Some(sdk.createThread.error) && r.0.threadId == m.threadId && r.0.agent.Some?
    ensures r.0.agent != m.agent ==> sdk.createAgent.Success? && r.0.agent == Some(sdk.createAgent.value)
  {
    if Ready(m) then (m, None)
    else
      var agent :=
        if m.agent.Some? then Success(m.agent.value) else sdk.createAgent;
      match agent
      case Failure(e) => (m, Some(e))
      case Success(a) =>
        var withAgent := m.(agent := Some(a));
        match sdk.createThread
        case Failure(e) => (withAgent, Some(e))
        case Success(t) => (withAgent.(threadId := Some(t)), None)
  }

  /** `analyze` with the corrected `initialize`. */
  function Analyze(m: Manager, query: string, sdk: Sdk): (s: Step)
    ensures s.manager.config == m.config
    ensures Ready(m) ==> s == PostAndDrain(m, query, sdk)
    ensures s.manager == (if Ready(m) then m else Initialize(m, sdk).0)
    ensures s.posted.None? <==> !Ready(m) && Initialize(m, sdk).1.Some?
    ensures s.posted.None? ==> s.result == Failure(Initialize(m, sdk).1.value)
    ensures s.posted.Some? ==> s.result == PostAndDrain(s.manager, query, sdk).result
    ensures s.posted.Some? ==> s.posted.value.text == query && s.posted.value.threadId == s.manager.threadId
  {
    if Ready(m) then PostAndDrain(m, query, sdk)
    else
      var (m1, err) := Initialize(m, sdk);
      if err.Some? then Step(m1, None, Failure(err.value))
      else PostAndDrain(m1, query, sdk)
  }

  /** The HTTP answer to one `analyze` step: the analysis on success; any exception
      becomes a 500 whose detail is the exception's message. */
  function Respond(s: Step): (r: Response)
    ensures r.Ok? <==> s.result.Success?
    ensures r.Ok? ==> r.body == s.result.value
    ensures r.HttpError? ==> r.status == 500 && r.detail == s.result.error
  {
    match s.result
    case Success(a) => Ok(a)
    case Failure(e) => HttpError(500, e)
  }

  /** The answer once the query was posted: determined by `add_chat_message` and the stream. */
  predicate HandleOnceInitialized(r: Response, sdk: Sdk)
  {
    && (sdk.addMessageError.Some? ==> r == HttpError(500, sdk.addMessageError.value))
    && (sdk.addMessageError.None? && WellFormed(sdk.chunks) && sdk.streamFailure.None? ==>
          r == Ok(Analysis(Narrative(sdk.chunks), Cite(Collected(sdk.chunks)))))
    && (sdk.addMessageError.None? && !WellFormed(sdk.chunks) ==> r == HttpError(500, IndexErrorMessage))
    && (sdk.addMessageError.None? && WellFormed(sdk.chunks) && sdk.streamFailure.Some? ==>
          r == HttpError(500, sdk.streamFailure.value))
  }

  /** `POST /analyze` as written. A raising `create` or `create_thread` gives a 500 with its
      message. Once an agent exists, or both creation calls succeed, the query is posted:
      a raising `add_chat_message` gives a 500 with its message; otherwise the answer is the
      stream's text-led contents and the annotation-led chunks' citations, a 500 with the
      `IndexError` message for a chunk without items, or a 500 with the stream's own failure
      message. The manager changes only through `initialize`. */
  function HandleAnalyze(m: Manager, text: string, sdk: Sdk): (r: (Manager, Response))
    ensures r.0 == (if Ready(m) then m else InitializeAsWritten(m, sdk).0)
    ensures m.agent.None? && sdk.createAgent.Failure? ==> r.1 == HttpError(500, sdk.createAgent.error)
    ensures m.agent.None? && sdk.createAgent.Success? && sdk.createThread.Failure? ==>
              r.1 == HttpError(500, sdk.createThread.error)
    ensures (m.agent.Some? || (sdk.createAgent.Success? && sdk.createThread.Success?)) ==>
              HandleOnceInitialized(r.1, sdk)
  {
    var s := AnalyzeAsWritten(m, text, sdk);
    (s.manager, Respond(s))
  }

  /** `POST /analyze` over the corrected `analyze`: it answers like the as-written handler
      once the manager is ready; a raising creation call (the thread's too, when only the
      thread is missing) gives a 500 with its message. */
  function HandleAnalyzeCorrected(m: Manager, text: string, sdk: Sdk): (r: (Manager, Response))
    ensures r.0 == (if Ready(m) then m else Initialize(m, sdk).0)
    ensures Ready(m) ==> r == HandleAnalyze(m, text, sdk)
    ensures !Ready(m) && m.agent.None? && sdk.createAgent.Failure? ==> r.1 == HttpError(500, sdk.createAgent.error)
    ensures !Ready(m) && (m.agent.Some? || sdk.createAgent.Success?) && sdk.createThread.Failure? ==>
              r.1 == HttpError(500, sdk.createThread.error)
    ensures (Ready(m) || ((m.agent.Some? || sdk.createAgent.Success?) && sdk.createThread.Success?)) ==>
              HandleOnceInitialized(r.1, sdk)
  {
    var s := Analyze(m, text, sdk);
    (s.manager, Respond(s))
  }

  /** The as-written guard never recovers a thread: once the manager holds an agent but no
      thread id, every later request leaves it so and posts its message to no thread,
      whatever the SDK would return. */
  lemma StuckWithoutThread(m: Manager, query: string, sdk: Sdk)
    requires m.agent.Some? && !Truthy(m.threadId)
    ensures AnalyzeAsWritten(m, query, sdk).manager == m
    ensures AnalyzeAsWritten(m, query, sdk).posted == Some(Post(m.threadId, query))
  {
  }

  /** A concrete run: the first request fails in `create_thread`, the second meets an SDK
      that would succeed at everything. As written, the second request still has no thread;
      with the corrected guard it creates one and posts to it. */
  lemma ThreadFailureCounterexample(config: Config)
    ensures var m0 := Manager(config, None, None);
            var first := Sdk(Success(Agent(1)), Failure("thread creation failed"), None, [], None);
            var second := Sdk(Success(Agent(2)), Success("thread_1"), None, [], None);
            var asWritten := AnalyzeAsWritten(AnalyzeAsWritten(m0, "q", first).manager, "q", second);
            var corrected := Analyze(Analyze(m0, "q", first).manager, "q", second);
            && asWritten.manager.threadId.None?
            && asWritten.posted == Some(Post(None, "q"))
            && Ready(corrected.manager)
            && corrected.manager.agent == Some(Agent(1))
            && corrected.posted == Some(Post(Some("thread_1"), "q"))
  {
    var m0 := Manager(config, None, None);
    var first := Sdk(Success(Agent(1)), Failure("thread creation failed"), None, [], None);
    var m1 := Manager(config, Some(Agent(1)), None);
    assert AnalyzeAsWritten(m0, "q", first).manager == m1;
    assert Analyze(m0, "q", first).manager == m1;
  }

  /** With the corrected guard, a request whose agent and thread creation succeed leaves the
      manager ready, keeps an existing agent, and posts the query to the new thread. */
  lemma AnalyzeRecoversThread(m: Manager, query: string, sdk: Sdk, t: string)
    requires !Ready(m)
    requires (m.agent.Some? || sdk.createAgent.Success?) && sdk.createThread == Success(t) && t != ""
    ensures Ready(Analyze(m, query, sdk).manager)
    ensures m.agent.Some? ==> Analyze(m, query, sdk).manager.agent == m.agent
    ensures Analyze(m, query, sdk).posted == Some(Post(Some(t), query))
  {
  }

  /** Once ready, a request neither replaces the agent nor opens a new thread: the same
      agent and thread serve every later request, and what the creation calls would
      return does not matter. */
  lemma AgentReusedAcrossRequests(m: Manager, query: string, sdk1: Sdk, sdk2: Sdk)
    requires Ready(m)
    requires sdk1.addMessageError == sdk2.addMessageError
    requires sdk1.chunks == sdk2.chunks && sdk1.streamFailure == sdk2.streamFailure
    ensures AnalyzeAsWritten(m, query, sdk1).manager == m
    ensures AnalyzeAsWritten(m, query, sdk1) == AnalyzeAsWritten(m, query, sdk2)
    ensures Analyze(m, query, sdk1) == AnalyzeAsWritten(m, query, sdk1)
  {
  }
}
