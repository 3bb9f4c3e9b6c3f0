# Financial RAG service — a Dafny model

This project models the decision and state-keeping code of a FastAPI
question-answering service over financial PDFs:

- the sliding-window **rate limiter**: a table from caller identity to the
  instants of that caller's recent requests;
- the **credential gates** that guard `/query` and `/ingest`;
- the **ingestion** steps: `.pdf` selection, the loading loop, and positional
  `chunk_id` assignment;
- the **index persistence**: provider dispatch, the `{provider, model}`
  metadata record, and the checks made on load;
- the **index path** derived from the settings;
- the **retrieval chain and query**;
- the four **routes** around the single global `chain`.

Foreign libraries are opaque functions or values passed in. These are the
PDF loader, the text splitter, FAISS, the embedding backends and the chat
model.

One module per source file:

| module | file | form |
|---|---|---|
| `Common` | shared types: `Option`, `Result`, `HttpError`, exception kinds, `Doc`, `str(int)` | pure |
| `Config` | src/config.py | pure |
| `Api` | src/api.py | pure |
| `Deps` | src/deps.py | pure gates; `CheckRateLimit` mutates the limiter |
| `RateLimit` | src/rate_limit.py | class `RateLimiter` with the table as a `map` field; pure `Decide`/`Run` for the proofs |
| `Ingestion` | src/ingestion.py | `LoadPdfs` loop proved against `LoadAll`; `AssignChunkIds` works in place on an `array<Doc>` |
| `Embeddings` | src/embeddings.py | pure functions over an abstract directory store |
| `Retrieval` | src/retrieval.py | pure |
| `App` | app.py | class `Server` with `chain` and `disk` fields; each route is a method proved equal to a pure spec function |

Settings are passed explicitly rather than read from a global. A request's
instant `now` is a parameter.

The unit tests of src/embeddings.py expect older signatures (a `model_name`
positional argument, and `HuggingFaceEmbeddings` without `model_kwargs`).
The model follows the current code.

## Model

| member | source | states |
|---|---|---|
| Common.OrElse | src/embeddings.py:26-27 | `x or default`: an absent or empty argument yields the default, any other value is kept |
| Common.NatToString | src/ingestion.py:50 | `str(i)` for a position: at least one character, all of them decimal digits |
| Common.NatToStringInjective | src/ingestion.py:50 | distinct positions print as distinct strings |
| Common.NatToStringReadsBack | src/ingestion.py:50 | the printed position reads back as the position, and has no leading zero unless it is "0" |
| Config.ReplaceSlash | src/config.py:21 | `replace('/', '_')` keeps the length, leaves no '/', and is '_' exactly where the input had '/' or '_' |
| Config.IndexPath | src/config.py:18-21 | the index path starts with "./.data/index/", and its length is root + mode + 1 + model |
| Config.IndexPathLastSegment | src/config.py:21 | after "./.data/index/<env>/" comes a segment as long as the model, with no '/' |
| Config.IndexPathSeparatesEnvs | src/config.py:6-21 | different deployment modes never share an index directory |
| Config.IndexPathConflatesSlashAndUnderscore | src/config.py:21 | models differing only by '/' versus '_' at the same places share one index directory |
| Config.DefaultIndexPath | src/config.py:6-21 | with the defaults, the path is "./.data/index/local/sentence-transformers_all-MiniLM-L6-v2" |
| Config.NamesAreLiterals | src/config.py:6-11 | mode, provider and device each range over their two spellings, and distinct values have distinct spellings |
| Config.DefaultsAreDocumented | src/config.py:6-30 | the defaults are local, sentence_transformers, "sentence-transformers/all-MiniLM-L6-v2", cuda, "./.data", k = 4, "gpt-4o-mini", and empty OpenAI, API and admin keys |
| Api.RequireApiKey | src/api.py:5-13 | outside prod: allow; in prod: missing or empty gives 401, a mismatch gives 403, and the call allows exactly on a match with `API_KEY` |
| Api.RequireAdminKey | src/api.py:16-24 | the same shape, against `ADMIN_API_KEY` |
| Api.GateStatuses | src/api.py:9-24 | a gate fails only with 401 or 403, and with 401 exactly when the header is missing or empty |
| Api.SecretsAreSeparate | src/api.py:12-24 | with distinct secrets, no header opens both gates |
| Api.DefaultSecretLocksOut | src/api.py:9-13 | in prod, a secret left at "" rejects every header |
| Deps.RequireApiKey | src/deps.py:6-14 | allows exactly outside prod or on a match; a failure is 403 when a header was given and 401 otherwise |
| Deps.RequireAdminKey | src/deps.py:17-25 | the same, against the admin secret |
| Deps.GatesAgreeWithApi | src/deps.py:6-25 | the copies in this file answer exactly as the gates the app uses, status and message alike |
| Deps.CheckRateLimit | src/deps.py:28-32 | outside prod: allow and leave the table unchanged; in prod: exactly the effect and outcome of `limiter.check` |
| RateLimit.TrimStart | src/rate_limit.py:17 | removes a leading run of whitespace, and only that |
| RateLimit.TrimEnd | src/rate_limit.py:17 | removes a trailing run of whitespace, and only that |
| RateLimit.Strip | src/rate_limit.py:17 | the result is a slice of the input with only whitespace before and after it, and none at either of its own ends; an already trimmed string is unchanged |
| RateLimit.BeforeComma | src/rate_limit.py:17 | `split(",")[0]`: the longest prefix without ',' |
| RateLimit.ClientIp | src/rate_limit.py:16-17 | without a forwarding header, the connection address; with one, the stripped first hop: no comma, no whitespace at either end, no longer than the header |
| RateLimit.GetKey | src/rate_limit.py:10-18 | "key:" + API key when that header is non-empty; else "ip:" + the stripped first forwarded address when that header is non-empty; else "ip:" + the client host |
| RateLimit.ApiKeyOverridesAddress | src/rate_limit.py:12-14 | with an API key, the forwarding header and the client host do not affect the key |
| RateLimit.IdentityNamespacesAreDisjoint | src/rate_limit.py:14-18 | an API-key identity never equals an address identity; different API keys give different identities |
| RateLimit.Prune | src/rate_limit.py:27 | the kept list is no longer than the old one |
| RateLimit.PruneSelects | src/rate_limit.py:27 | an instant is kept exactly when it was stored and lies strictly after `now - 60` |
| RateLimit.PruneAppend | src/rate_limit.py:27-35 | pruning distributes over appending one instant |
| RateLimit.PruneTwice | src/rate_limit.py:27 | pruning at a later window start after an earlier one equals pruning once at the later start |
| RateLimit.PruneKeepsRecent | src/rate_limit.py:27 | a list already inside the window is kept as it is |
| RateLimit.PruneDropsOld | src/rate_limit.py:27 | a list entirely at or before the window start is emptied |
| RateLimit.Decide | src/rate_limit.py:24-35 | admitted exactly when the pruned list is shorter than the ceiling; admitted keeps the pruned list + [now]; rejected keeps the pruned list |
| RateLimit.DecideKeepsWindow | src/rate_limit.py:24-35 | everything stored after a check lies inside the trailing 60 s |
| RateLimit.AdmissionResumesAfterWindow | src/rate_limit.py:24-35 | once every stored instant is 60 s or more old, a check with a positive ceiling is admitted and the list restarts at [now] |
| RateLimit.NonPositiveCeilingRejectsAll | src/rate_limit.py:29 | a ceiling of 0 or less rejects every check |
| RateLimit.RateLimiter.constructor | src/rate_limit.py:6-8 | a limiter with the given ceiling and an empty table |
| RateLimit.Bucket | src/rate_limit.py:27 | the `defaultdict(list)` lookup: a caller's stored list, or the empty list for a caller never seen |
| RateLimit.RateLimiter.Exceeded | src/rate_limit.py:30-33 | the error a rejected check raises has status 429 |
| RateLimit.RateLimiter.ExceededNamesCeiling | src/rate_limit.py:32 | the detail is "Rate limit exceeded. Max ", the ceiling, then " requests/minute. Try again shortly.", and its middle reads back as a non-negative ceiling |
| RateLimit.RateLimiter.Check | src/rate_limit.py:20-35 | only the caller's own list changes; it becomes the `Decide` result; 429 exactly when rejected; after an admission the list fits the ceiling |
| RateLimit.RateLimiter.CheckKey | src/rate_limit.py:22-35 | the body of `check` for a known identity: the same new table, decision and 429 as `Check`, stated for that key |
| RateLimit.Run | src/rate_limit.py:20-35 | a run of checks for one caller never admits more requests than it was given |
| RateLimit.Step | src/rate_limit.py:20-35 | one more check admits at most one more request |
| RateLimit.RunPrefixStep | src/rate_limit.py:20-35 | each further check extends a run by exactly one `Step` |
| RateLimit.RateLimiter.CheckEach | src/rate_limit.py:20-35 | successive `check` calls by a caller new to the table leave its list as `Run` stores it, touch no other caller, and the last passes exactly when `Run` admits it |
| RateLimit.StepKeepsWindow | src/rate_limit.py:27-35 | one more check keeps "stored = admitted instants inside the window" true |
| RateLimit.RunStoresWindowOfAdmitted | src/rate_limit.py:27-35 | after any run of checks, the stored list is exactly the admitted instants inside the last window |
| RateLimit.CountWithinAtMostPruned | src/rate_limit.py:27 | instants inside a window are all kept by a prune at or before its start |
| RateLimit.AdmittedInstantFits | src/rate_limit.py:29-35 | an admitted instant leaves its window within the ceiling |
| RateLimit.AdmittedStepFits | src/rate_limit.py:27-35 | the inductive step of the window bound |
| RateLimit.AdmissionsPerWindowBounded | src/rate_limit.py:27-35 | at non-decreasing instants, no 60-second window ever holds more admissions than the ceiling |
| RateLimit.BackwardClockExceedsCeiling | src/rate_limit.py:23-35 | with a clock that steps back (100, 101, 200, 110) and a ceiling of 2, all four checks are admitted and one 60-second window holds three |
| RateLimit.BurstAtOneInstant | tests/test_rate_limit.py:6-27 | n checks at one instant admit the first min(n, ceiling); the last is admitted exactly when n ≤ ceiling |
| RateLimit.CeilingOfThreeExample | tests/test_rate_limit.py:16-27 | with ceiling 3, the fourth check at one instant is rejected, and a check 61 s later is admitted |
| Ingestion.PdfFiles | src/ingestion.py:17 | exactly the entries ending in ".pdf", and no more of them than the listing has |
| Ingestion.LoadAllConcat | src/ingestion.py:20-25 | loading two runs of files is the concatenation of loading each |
| Ingestion.LoadAllOne | src/ingestion.py:20-22 | one file contributes exactly its loader's pages |
| Ingestion.NoPdfsLoadsNothing | src/ingestion.py:17-25 | a listing without PDFs, a plain file's included, loads nothing |
| Ingestion.LoadPdfs | src/ingestion.py:9-25 | a missing directory raises FileNotFoundError before any load; otherwise the loader runs once per PDF in listing order, and the pages are concatenated in that order |
| Ingestion.LoadAll | src/ingestion.py:20-22 | no files load nothing; every file's pages fit in the result, and the last file's pages end it |
| Ingestion.GeneratedId | src/ingestion.py:49-50 | the id is the source (or "unknown"), an underscore, then an underscore-free suffix that reads back as the position |
| Ingestion.WithChunkId | src/ingestion.py:48-50 | one chunk after the loop body: it has an id, an existing id leaves it untouched, the text and every other key are kept |
| Ingestion.WithChunkIds | src/ingestion.py:47-50 | the whole loop: same count, every chunk has an id and its own text, chunks with an id are untouched |
| Ingestion.ChunkIdsAssigned | src/ingestion.py:46-52 | same count and order; every chunk has an id; an existing id is kept; a missing one is source (or "unknown") + "_" + position; no other key or text changes |
| Ingestion.WithChunkIdsIdempotent | src/ingestion.py:48 | running the id loop again changes nothing |
| Ingestion.SuffixAfterLastUnderscore | src/ingestion.py:50 | two ids ending in "_" + an underscore-free suffix have equal suffixes when they are equal |
| Ingestion.GeneratedIdsDistinct | src/ingestion.py:47-50 | ids generated in one run are pairwise distinct, whatever the sources |
| Ingestion.AssignChunkIds | src/ingestion.py:47-50 | the in-place loop leaves the array equal to `WithChunkIds` of its old contents |
| Ingestion.Ingest | src/ingestion.py:41-52 | load, split with chunk size 1000, overlap 200 and the five separators, then number the chunks; a missing directory raises FileNotFoundError |
| Embeddings.GetEmbeddings | src/embeddings.py:16-46 | absent arguments fall back to the settings; "openai" and "sentence_transformers" select their backend with the right key or device; anything else raises ValueError naming it |
| Embeddings.DefaultProviderResolves | src/embeddings.py:26-46 | without a provider argument the call cannot fail, and the backend matches the settings |
| Embeddings.EmptyArgumentsFallBack | src/embeddings.py:26-27 | empty arguments behave as absent ones |
| Embeddings.CreateIndex | src/embeddings.py:49-57 | the index holds exactly the chunks, embedded with the settings' provider and the given model |
| Embeddings.CurrentMetadata | src/embeddings.py:66-69 | the record names one of the two provider spellings and the configured model |
| Embeddings.MetadataIdentifiesSettings | src/embeddings.py:66-69 | two settings write the same record exactly when they agree on provider and model |
| Embeddings.SaveIndex | src/embeddings.py:60-70 | writes the index files and the current settings' `{provider, model}` into the directory; no other directory changes |
| Embeddings.LoadIndex | src/embeddings.py:73-90 | a missing directory raises FileNotFoundError; a raise of the library calls (embedder construction, index read) makes the load fail; a success returns the stored chunks with the embedder for `model_name`, from a directory whose record is absent or names the current provider and model |
| Embeddings.SaveLoadRoundTrip | src/embeddings.py:60-90 | an index created and saved under some settings loads back unchanged under the same settings, or fails with exactly what the library calls raised |
| Embeddings.SaveIsolatesDirectories | src/embeddings.py:60-76 | saving one directory does not change loading from any other |
| Embeddings.ProviderCheckedFirst | src/embeddings.py:80-85 | under another provider the load is refused with the provider message, even when the model differs too |
| Embeddings.ModelMismatchRejected | src/embeddings.py:84-85 | same provider but another model is refused with the model message |
| Embeddings.NoMetadataSkipsCheck | src/embeddings.py:79-88 | without a metadata record nothing is checked, and the load succeeds when the library calls do |
| Embeddings.CheckIgnoresModelName | src/embeddings.py:84-87 | for the same library outcome, whether a load is refused, and why, does not depend on the `model_name` argument |
| Retrieval.FormatDocs | src/retrieval.py:32-34 | none gives ""; one gives its content; n ≥ 1 gives the summed content lengths + 2(n − 1) |
| Retrieval.FormatDocsConcat | src/retrieval.py:34 | joining two non-empty runs puts exactly one "\n\n" between their joins |
| Retrieval.Prompt | src/retrieval.py:16-24 | the prompt is the template's head, the context, the middle, the question and the tail, each verbatim and in that order |
| Retrieval.FillsUnique | src/retrieval.py:16-24 | only one text has the template's parts around a given context and question: the filled prompt |
| Retrieval.CreateChain | src/retrieval.py:37-52 | the retriever for `k` is both the chain's context step and its attached `retriever`; the model is the one given |
| Retrieval.DefaultChain | src/retrieval.py:13-14 | the defaults are k = 4 and "gpt-4o-mini" |
| Retrieval.InvokeChain | src/retrieval.py:43-48 | the retriever is called first; the model is asked at most once, exactly when retrieval succeeds, with a prompt carrying the joined pages and the question verbatim in the template, and the answer is its reply; a retrieval raise is the answer |
| Retrieval.Sources | src/retrieval.py:65 | one metadata per document, in order |
| Retrieval.Query | src/retrieval.py:55-66 | the attached retriever runs first, and its raise ends the query; the chain then retrieves again on its own; the sources are the first retrieval's metadata and the answer (or the raise) is the chain's |
| Retrieval.SourcesMatchContext | src/retrieval.py:37-66 | for a created chain whose second retrieval returns what the first returned, the sources are the documents whose pages went into the prompt of the answer; the calls are retrieve, retrieve, generate |
| Retrieval.SourcesMayDifferFromContext | src/retrieval.py:37-66 | when the chain's own retrieval returns documents with other metadata, the answer is built from those while the sources describe the first retrieval's |
| App.RequestFor | app.py:19-21 | a request without `k` gets k = 4 |
| App.StartupTolerant | app.py:34-43 | startup never raises and never touches the disk; `chain` changes only when loading (the checks and the library calls) and chain creation both succeed |
| App.StartupWithoutIndex | app.py:34-43 | with no index directory, the server starts without a chain |
| App.ErrorFor | app.py:61-64 | FileNotFoundError becomes 404, anything else 500, with the exception's message as detail |
| App.FirstFailure | app.py:51-55 | no step raised exactly when all four completed; otherwise the earliest raise |
| App.StartupSpec | app.py:34-43 | startup never touches the disk, calls `load_index` first and `create_chain` only after it, and changes the chain only when `create_chain` succeeds |
| App.IngestSpec | app.py:46-64 | the calls made are a prefix of ingest, create_index, save_index, create_chain; a failure keeps the chain and is 401, 403, 404 or 500; the disk changes only once all four ran; a success ran all four and serves a chain |
| App.QuerySpec | app.py:67-86 | a failure is 400, 401, 403 or 500; nothing is called exactly when the gate rejects or no chain is served; without a chain the answer is a failure |
| App.IngestSuccess | app.py:46-59 | success happens exactly when the gate passes and no step raises; then all four steps ran in order, the chain serves the ingested chunks with k = 4, and `chunks_processed` is their number |
| App.IngestFailureKeepsChain | app.py:51-64 | a failed /ingest keeps the chain; past the gate, the first raise becomes 404 for FileNotFoundError and 500 otherwise, carrying its message |
| App.IngestGateFirst | app.py:46-47 | a rejected admin key stops /ingest before any collaborator runs |
| App.IngestChainFailureLeavesNewIndex | app.py:51-64 | when only `create_chain` raises, the old chain keeps serving while the new index is already on disk: a later load returns it unless the library calls of `load_index` raise |
| App.IngestThenRestart | app.py:34-59 | after a successful /ingest, a restarted server whose `load_index` library calls and `create_chain` succeed serves exactly the chain /ingest installed; otherwise it serves none |
| App.QueryOutcomes | app.py:67-86 | a rejected key answers first; with no chain the answer is 400 and nothing is called; otherwise the response is the query's, and a raise becomes 500 |
| App.QueryIgnoresK | app.py:19-79 | requests differing only in `k` get the same response |
| App.Server.constructor | app.py:16 | the service starts with no chain |
| App.Server.Startup | app.py:34-43 | the new state and the calls are those of `StartupSpec` |
| App.Server.IngestDocuments | app.py:46-64 | the response, new state and calls are those of `IngestSpec` |
| App.Server.QueryRag | app.py:67-86 | changes nothing; the response and calls are those of `QuerySpec` |
| App.Server.Health | app.py:89-92 | the status is always "ok"; `index_loaded` is true exactly when a chain is served |

## Left out

- Clock: `time.time()` is a float. Instants are whole numbers of seconds passed in as `now`.
- `RateLimit.AdmissionsPerWindowBounded`: the window bound holds only for instants that never go back. `time.time()` is the wall clock, which can be stepped backwards; `RateLimit.BackwardClockExceedsCeiling` shows three admissions in one window under a ceiling of 2 when it is.
- Floating point: the chat model's `temperature` is not modelled.
- Foreign algorithms are opaque, and none is modelled. This covers the PDF loader, the recursive text splitter, FAISS vectors and similarity search, the embedding backends, the chat model and the general semantics of the LCEL pipe operator. This chain's own data flow through the pipe is modelled (`Retrieval.InvokeChain`). The loader, the splitter, each of the two retrievals of a query and the chat model are function parameters. An index is its chunks plus its embedder.
- Filesystem and JSON:
  - a directory is a map entry;
  - `mkdir(parents=True)` of parent directories is not modelled;
  - partial writes on a failing `save_index` are not modelled;
  - an unreadable or malformed `metadata.json` (a JSON error, or a `KeyError` for a missing field) is not modelled, because the record is only ever written whole by `save_index`.
- `Embeddings.LoadIndex`: `get_embeddings(model_name=...)` and `FAISS.load_local` are opaque; what they raise on a present directory is the `loaders` input, so why they raise is not modelled.
- `Embeddings.MissingIndexFiles`: the error `FAISS.load_local` raises when the index files are absent is an `Other` exception with empty text, because the library's wording is not visible.
- `Ingestion.LoadPdfs`: the loader is a total function, so a raise inside the loading loop is not modelled here. At the route level it is covered by the `ingest` outcome of `App.IngestSteps`.
- Listing: the glob's listing order is whatever the directory listing yields, given as `DataDir.entries`. A path that is a plain file is a `DataDir` without entries. The default `./data` directory of `ingest()` differs from the `DOCS_PATH` setting, which no code reads.
- Chunk identity: Python chunks are objects whose metadata dictionaries could be shared between chunks. The model's chunks are values in an array, so aliasing between them is not captured.
- Ids: generated chunk ids are distinct from each other, but can equal an id a chunk already had. The model states distinctness only among generated ids, as the code provides.
- `RateLimit.GetKey`: the connection address is always present. In the code, `request.client` can be `None`, and a request without an API key or a forwarding header then raises `AttributeError`; that path is not modelled.
- Unicode: whitespace for `strip()` is Python's `isspace` table for single code points. No normalisation, case folding or encoding is modelled.
- `Common.IntToString` (the ceiling's text in the 429 message) carries no contract of its own; `RateLimiter.ExceededNamesCeiling` states that a non-negative ceiling reads back from the detail, and says nothing about the text of a negative one.
- Exception text: `str(e)` is the exception's message. Python's quoting of a `KeyError` message is not modelled.
- Settings loading from the environment and `.env` (pydantic) is not modelled. Settings are values passed explicitly; importing a module is not modelled.
- FastAPI mechanics are not modelled: `Depends` and header extraction, the 422 validation of request bodies, response models, uvicorn, `print` logging and the `__main__` blocks.
- Concurrency: routes and the limiter are sequential. No lock or atomicity is modelled, since the code has none.
- Rate limiter wiring: the app never uses the limiter, and `check_rate_limit` is unused. `Deps.CheckRateLimit` takes the limiter as a parameter, standing for the module singleton, whose ceiling is `DefaultRequestsPerMinute` (60).
- `App.IngestSteps`: `ingest`, `create_index`, `save_index` and `create_chain` are given by their outcome (a value, or the exception they raise), so why each raises is not modelled. On success, the index and the chain are the ones `CreateIndex` and `CreateChain` build.
