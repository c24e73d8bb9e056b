# HR resume analysis backend — Dafny model

A model of the logic inside `main.py` of the HR resume search backend, a FastAPI service
that forwards a question to a hosted Azure OpenAI assistant with file search and returns
`{"analysis": ..., "citations": [...]}`. Everything around that logic is glue around
FastAPI and the assistant SDK. The model covers three pieces:

- **Configuration** (`config.dfy`, module `AzureConfig`): `AzureConfig.from_env` on the
  three environment values `AZURE_OPENAI_API_KEY`, `AZURE_OPENAI_ENDPOINT` and
  `AZURE_OPENAI_CHAT_COMPLETION_DEPLOYED_MODEL_NAME`. Each value is an `Option<string>`.
  Python truthiness is kept: an unset variable and an empty one are both missing. On
  failure the result is the ordered list of missing names. On success it is the config,
  with the endpoint's trailing `/` characters stripped (`rstrip("/")`) and the API
  version defaulted to `2024-10-01-preview`.
- **Response aggregation** (`aggregation.dfy`, module `Aggregation`): the loop over
  `invoke_stream` in `AssistantManager.analyze`. Each chunk is classified by its first
  item only. If that item is an annotation, all of the chunk's items go to the citation
  buffer. Otherwise the chunk's `content` is appended to the text. The buffer is then
  projected to `{file, quote}` records, keeping only annotations. A chunk with no items
  raises `IndexError` ("list index out of range"). A stream that raises after some
  chunks is modelled as the delivered chunks plus a failure message.
- **Manager life cycle** (`manager.dfy`, module `AssistantManager`): start-up (the
  module-level `AssistantManager()` that calls `from_env`), the lazy `initialize` guard,
  `analyze`, and the `/analyze` handler that turns any exception into a 500 whose
  detail is the message. The SDK calls are not modelled. What they return in one
  request (the created agent, the thread id, errors, the streamed chunks) is a
  parameter.

The code does not rebuild the agent per request. It creates one agent and one thread
lazily, on the first request whose creation calls succeed, and reuses them for every
later request (`AgentReusedAcrossRequests`). A raising `create` is retried on the next
request; a raising `create_thread` leaves the agent without a thread for good (see
Findings). There is no job-description selection, and the query
is posted unmodified (`AnalyzeAsWritten` and `Analyze` ensure that).

Files: `wrappers.dfy` (`Option`, `Result`), `config.dfy`, `aggregation.dfy`, `manager.dfy`.

## Model

| member | source | states |
|---|---|---|
| AzureConfig.FromEnv | main.py:37-58 | fails exactly when one of the three values is unset or empty; the failure lists `Missing`; on success key and deployment pass through unchanged, the API version is the default, and the endpoint is a prefix of the input, not ending in `/`, with only `/` removed |
| AzureConfig.Missing | main.py:44-52 | a required name is listed iff its value is falsy; only the three required names appear, each at most once, in the fixed order key, endpoint, deployment; empty iff every value is present |
| AzureConfig.RStrip | main.py:56 | `rstrip` keeps a prefix of the input, removes only the given character, and leaves no trailing occurrence of it |
| AzureConfig.RStripUnique | main.py:56 | any split into a part not ending in the character plus a run of it is the split `rstrip` makes, so the removed suffix is the maximal one |
| AzureConfig.RStripIdempotent | main.py:56 | stripping an already stripped endpoint changes nothing |
| AzureConfig.TrailingSlashesIgnored | main.py:54-58 | adding any number of `/` to the endpoint yields the same configuration |
| AzureConfig.SlashOnlyEndpointBecomesEmpty | main.py:44-56 | validation runs before stripping, so an endpoint of only slashes is accepted and configured as `""` |
| AzureConfig.MissingMessage | main.py:52 | the `ValueError` message is the fixed prefix followed by the one, two or three names joined with `", "` in list order |
| AzureConfig.JoinUpToThree | main.py:52 | `", ".join` of one, two or three names, written out |
| Aggregation.Fold | main.py:154-161 | the loop from chunk i on succeeds iff no chunk lacks items; the text and buffer grow by the reference `Narrative` and `Collected` of the remaining chunks; on failure it names the first item-less chunk |
| Aggregation.Aggregate | main.py:154-166 | succeeds iff every chunk has items and the stream closed; the analysis is the text-led chunks' contents in order; the citations project the annotation-led chunks' items; an empty chunk fails at the first such position, a stream failure carries its message |
| Aggregation.Cite | main.py:165 | the list comprehension over the buffer; its own contract bounds the number of records by the buffer length, and `CiteIsProjection`, `CiteMembership` and `CiteAppend` state its contents and order |
| Aggregation.NarrativeAppend | main.py:154-161 | the text of a concatenated stream is the concatenation of the texts |
| Aggregation.CollectedAppend | main.py:155-159 | the citation buffer of a concatenated stream is the concatenation of the buffers |
| Aggregation.CiteAppend | main.py:165 | projecting a concatenated buffer concatenates the projections |
| Aggregation.CiteIsProjection | main.py:165 | there are exactly as many citations as annotation items, and the k-th citation carries the file id and quote of the k-th annotation |
| Aggregation.CiteMembership | main.py:165 | a `{file, quote}` record is cited iff an annotation with that file and quote is in the buffer |
| Aggregation.CollectedMembership | main.py:157-159 | an item is buffered iff it belongs to some chunk whose first item is an annotation |
| Aggregation.CitationSource | main.py:157-165 | a citation is reported iff some annotation-led chunk carries that annotation |
| Aggregation.AggregateAppend | main.py:154-166 | draining two streams back to back yields the first text then the second, and the first citations then the second, without deduplication |
| Aggregation.DroppedItems | main.py:157-161 | a text-led chunk adds its content and no citation, even for its annotations; an annotation-led chunk adds no text and cites only its annotation items |
| Aggregation.InterleavingIrrelevant | main.py:157-165 | citations depend only on the annotation-led chunks and text only on the text-led ones, however the two kinds interleave |
| Aggregation.CitationsFromAnnotationLedOnly | main.py:157-159 | the citation buffer equals that of the annotation-led chunks alone |
| Aggregation.TextFromTextLedOnly | main.py:157-161 | the text equals that of the text-led chunks alone |
| Aggregation.EmptyChunkFailsWhole | main.py:157-158 | the first chunk without items fails the whole drain at its position, whatever follows it; no partial result is returned |
| AssistantManager.Startup | main.py:111-112 | start-up succeeds iff the configuration is complete, with no agent or thread yet; otherwise the error is the missing-variables message naming exactly the missing variables, in order |
| AssistantManager.InitializeAsWritten | main.py:117-140 | a no-op whenever an agent exists; otherwise a raising `create` changes nothing and reports its error; a raising `create_thread` leaves the created agent stored without a thread and reports its error; when both calls succeed the SDK's agent and thread id are stored and nothing is raised |
| AssistantManager.PostAndDrain | main.py:146-166 | the query is posted to the manager's current thread and the manager is unchanged; a raising `add_chat_message` is the result; otherwise the result is the text-led chunks' contents with the annotation-led chunks' citations, "list index out of range" for an item-less chunk, or the stream's failure message |
| AssistantManager.AnalyzeAsWritten | main.py:142-166 | the manager afterwards is the input if ready, else what the as-written `initialize` leaves; nothing is posted exactly when the manager is not ready and `initialize` raised, and then that error is the result; otherwise the query is posted unmodified to the resulting thread and the result is that of posting and draining |
| AssistantManager.Initialize | main.py:117-140 | corrected guard: a ready manager is unchanged; a missing agent or thread is created, an existing agent kept (its `create` result is then irrelevant); success leaves both set |
| AssistantManager.Analyze | main.py:142-166 | corrected guard: the manager afterwards is the input if ready, else what the corrected `initialize` leaves; nothing is posted exactly when the corrected `initialize` raised, and then that error is the result; otherwise the query is posted unmodified to the resulting thread and the result is that of posting and draining |
| AssistantManager.Respond | main.py:183-187 | a successful step answers with its analysis; a failed one with a 500 whose detail is the error message |
| AssistantManager.HandleAnalyze | main.py:142-187 | `POST /analyze` as written: the manager changes only through `initialize`; a raising `create` or `create_thread` gives a 500 with its message; once an agent exists or creation succeeds, a raising `add_chat_message` gives a 500 with its message, otherwise the answer is the aggregated text and citations, a 500 with "list index out of range" for an item-less chunk, or a 500 with the stream's failure message |
| AssistantManager.HandleAnalyzeCorrected | main.py:142-187 | the corrected handler: equal to the as-written one for a ready manager; a raising creation call gives a 500 with its message; after successful initialisation the answer is determined by `add_chat_message` and the stream as above |
| AssistantManager.StuckWithoutThread | main.py:117-147 | as written, a manager with an agent but a falsy thread id (unset or `""`) stays so on every request and posts to that thread id, whatever the SDK returns |
| AssistantManager.ThreadFailureCounterexample | main.py:117-144 | a concrete run in which `create_thread` fails once: as written the next request still has no thread; corrected it creates one and posts to it |
| AssistantManager.AnalyzeRecoversThread | main.py:117-144 | with the corrected guard, a non-ready manager whose thread creation succeeds (and whose agent exists or is created) ends ready, keeps an existing agent without calling `create`, and posts to the new thread |
| AssistantManager.AgentReusedAcrossRequests | main.py:117-144 | as written, once ready a request keeps the same agent and thread and its outcome does not depend on what the creation calls would return; the corrected `Analyze` behaves identically on a ready manager |

## Findings

| source | as written | input that shows it | evidently intended | confidence | as-written member | corrected member |
|---|---|---|---|---|---|---|
| main.py:117-144 | `initialize` acts only when `self.agent` is falsy. `analyze` calls it also when `self.thread_id` is falsy, and the agent is stored before `create_thread` is awaited. | First request: `create` succeeds and `create_thread` raises. The manager now has an agent and no thread id. Every later request skips creation and posts to thread `None`. | `initialize` creates the thread whenever the thread id is missing, so the `not self.thread_id` half of `analyze`'s guard has an effect | medium; not executed | AssistantManager.AnalyzeAsWritten (StuckWithoutThread, ThreadFailureCounterexample) | AssistantManager.Analyze (AnalyzeRecoversThread) |

`HandleAnalyze` models the `/analyze` handler as written, over `AnalyzeAsWritten`. `HandleAnalyzeCorrected` is the same handler over the corrected `Analyze`.

## Left out

- `ResumeManager` (main.py:60-108): writes sample resumes to disk and globs `*.txt`. This is filesystem I/O, and the glob order depends on the filesystem. The file list passed to the agent is part of the opaque `create` call.
- The arguments of `AzureAssistantAgent.create`: name, instructions, file search, vector store file names, and `temperature=0.7`. Also the semantics of `create_thread`, `add_chat_message` and `invoke_stream`. These are remote SDK calls; their results are parameters (`Sdk`).
- `load_dotenv` and `os.getenv`: only the three values they yield are modelled.
- FastAPI routing, the `/` template page, static mounting and `uvicorn.run`: web framework plumbing. Of the handler, only "exception maps to 500 with its message" is kept.
- async scheduling: the manager model is sequential, one request at a time, and only the order of chunks matters. It cannot show this consequence: two concurrent first requests can both pass `if not self.agent` (main.py:118) while the other is suspended in `await AzureAssistantAgent.create`. Two agents are then created, and the later assignments to `self.agent` and `self.thread_id` win.
- AzureConfig.MissingMessage: the message is written out for one, two or three names only, which covers every list `Missing` can produce. `Join` on longer lists is not characterised.
- AzureConfig.FromEnv: a `ValueError` is modelled as the failure value (the list of names). The process-level effect, that start-up aborts, is stated by `Startup`.
- Aggregation.Cite: its own contract bounds the length only. Its content and order are stated by `CiteIsProjection`, `CiteMembership` and `CiteAppend`.
