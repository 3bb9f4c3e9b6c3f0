/** app.py: the four routes around the single global `chain`. The server also
    owns the directory store that `save_index` writes and `load_index` reads.
    Every collaborator that may raise is given as an input: for /ingest, the
    outcome of each step; for /query, the opaque retrievals and chat model. */
module App {
  import opened Common
  import opened Config
  import Api
  import opened Embeddings
  import opened Retrieval

  /** The `k` a /query body gets when it names none. */
  const DefaultQueryK := 4

  /** The body of a /query request. */
  datatype QueryRequest = QueryRequest(question: string, k: int)

  datatype IngestResponse = IngestResponse(status: string, chunksProcessed: nat)

  datatype HealthResponse = HealthResponse(status: string, indexLoaded: bool)

  const NoIndexLoaded := HttpError(400, "No index loaded. Call /ingest first")

  /** A collaborator call made by a route, in the order made. */
  datatype Call = LoadIndexCall | IngestCall | CreateIndexCall | SaveIndexCall | CreateChainCall

  /** What the collaborators of one /ingest request do: `ingest()` returns
      chunks or raises; each later step either completes or raises. */
  datatype IngestSteps = IngestSteps(
    ingest: Result<seq<Doc>, Exception>,
    createIndex: Outcome<Exception>,
    saveIndex: Outcome<Exception>,
    createChain: Outcome<Exception>)

  /** The server's state as a value: the served chain and the store on disk. */
  datatype Served = Served(chain: Option<Chain>, disk: Store)

  datatype StartupRun = StartupRun(after: Served, calls: seq<Call>)
  datatype IngestRun = IngestRun(response: Result<IngestResponse, HttpError>, after: Served, calls: seq<Call>)
  datatype QueryRoute = QueryRoute(response: Result<QueryResponse, HttpError>, calls: seq<Invocation>)

  /** A `QueryRequest` built from a question alone. */
  function RequestFor(question: string): (request: QueryRequest)
    ensures request.question == question && request.k == 4
  {
    QueryRequest(question, DefaultQueryK)
  }

  /** The two `except` clauses of /ingest: `HTTPException(404 or 500, str(e))`. */
  function ErrorFor(e: Exception): (r: HttpError)
    ensures r.status == (if e.FileNotFoundError? then 404 else 500) && r.detail == e.message
    ensures r.status in {404, 500}
  {
    HttpError(if e.FileNotFoundError? then 404 else 500, e.message)
  }

  /** The first step of /ingest that raised, if any. */
  function FirstFailure(steps: IngestSteps): (r: Option<Exception>)
    ensures r.None? <==>
      steps.ingest.Success? && steps.createIndex.Pass? && steps.saveIndex.Pass? && steps.createChain.Pass?
    ensures steps.ingest.Failure? ==> r == Some(steps.ingest.error)
    ensures steps.ingest.Success? && steps.createIndex.Fail? ==> r == Some(steps.createIndex.error)
  {
    if steps.ingest.Failure? then Some(steps.ingest.error)
    else if steps.createIndex.Fail? then Some(steps.createIndex.error)
    else if steps.saveIndex.Fail? then Some(steps.saveIndex.error)
    else if steps.createChain.Fail? then Some(steps.createChain.error)
    else None
  }

  /** `startup`: load the index from the settings' directory and build a
      chain from it; any exception is swallowed and leaves `chain` as it was.
      `loaders` is what the library calls inside `load_index` raise, if
      anything; `createChain` is what `create_chain` does. */
  function StartupSpec(settings: Settings, before: Served, loaders: Outcome<Exception>,
                       createChain: Outcome<Exception>): (run: StartupRun)
    ensures run.after.disk == before.disk
    ensures 1 <= |run.calls| <= 2 && run.calls[0] == LoadIndexCall
    ensures |run.calls| == 2 ==> run.calls[1] == CreateChainCall
    ensures run.after.chain != before.chain ==> |run.calls| == 2 && createChain.Pass? && run.after.chain.Some?
  {
    var loaded := LoadIndex(settings, before.disk, IndexPath(settings), settings.embeddingsModel, loaders);
    if loaded.Failure? then StartupRun(before, [LoadIndexCall])
    else if createChain.Fail? then StartupRun(before, [LoadIndexCall, CreateChainCall])
    else StartupRun(before.(chain := Some(CreateChain(loaded.value, DefaultModel, DefaultK))), [LoadIndexCall, CreateChainCall])
  }

  /** `ingest_documents`: the admin gate, then ingest, create_index,
      save_index and create_chain in order, stopping at the first raise. */
  function IngestSpec(settings: Settings, before: Served, xAdminKey: Option<string>, steps: IngestSteps): (run: IngestRun)
    ensures run.calls <= [IngestCall, CreateIndexCall, SaveIndexCall, CreateChainCall]
    ensures run.response.Failure? ==> run.after.chain == before.chain
    ensures run.after.disk != before.disk ==> |run.calls| == 4
    ensures run.response.Success? ==> |run.calls| == 4 && run.after.chain.Some?
    ensures run.response.Failure? ==> run.response.error.status in {401, 403, 404, 500}
  {
    var gate := Api.RequireAdminKey(settings, xAdminKey);
    if gate.Fail? then IngestRun(Failure(gate.error), before, [])
    else if steps.ingest.Failure? then
      IngestRun(Failure(ErrorFor(steps.ingest.error)), before, [IngestCall])
    else if steps.createIndex.Fail? then
      IngestRun(Failure(ErrorFor(steps.createIndex.error)), before, [IngestCall, CreateIndexCall])
    else if steps.saveIndex.Fail? then
      IngestRun(Failure(ErrorFor(steps.saveIndex.error)), before, [IngestCall, CreateIndexCall, SaveIndexCall])
    else
      var chunks := steps.ingest.value;
      var index := CreateIndex(settings, chunks, settings.embeddingsModel);
      var disk := SaveIndex(settings, before.disk, index, IndexPath(settings));
      var calls := [IngestCall, CreateIndexCall, SaveIndexCall, CreateChainCall];
      if steps.createChain.Fail? then
        IngestRun(Failure(ErrorFor(steps.createChain.error)), before.(disk := disk), calls)
      else
        IngestRun(Success(IngestResponse("success", |chunks|)),
                  Served(Some(CreateChain(index, DefaultModel, DefaultK)), disk), calls)
  }

  /** `query_rag`: the API gate, then the 400 for a missing chain, then
      `query(chain, request.question)` with any raise turned into a 500. */
  function QuerySpec(settings: Settings, chain: Option<Chain>, request: QueryRequest, xApiKey: Option<string>,
                     retrieve: RetrieveFn, retrieveInChain: RetrieveFn,
                     generate: GenerateFn): (route: QueryRoute)
    ensures route.response.Failure? ==> route.response.error.status in {400, 401, 403, 500}
    ensures route.calls == [] <==> Api.RequireApiKey(settings, xApiKey).Fail? || chain.None?
    ensures chain.None? ==> route.response.Failure?
  {
    var gate := Api.RequireApiKey(settings, xApiKey);
    if gate.Fail? then QueryRoute(Failure(gate.error), [])
    else if chain.None? then QueryRoute(Failure(NoIndexLoaded), [])
    else
      var run := Query(chain.value, request.question, retrieve, retrieveInChain, generate);
      QueryRoute(
        if run.outcome.Failure? then Failure(HttpError(500, run.outcome.error.message)) else Success(run.outcome.value),
        run.calls)
  }

  /** `startup` never fails and never touches the disk; `chain` changes only
      when both the load and the chain creation succeed. */
  lemma StartupTolerant(settings: Settings, before: Served, loaders: Outcome<Exception>, createChain: Outcome<Exception>)
    ensures var run := StartupSpec(settings, before, loaders, createChain);
      var loaded := LoadIndex(settings, before.disk, IndexPath(settings), settings.embeddingsModel, loaders);
      && run.after.disk == before.disk
      && (loaded.Failure? || createChain.Fail? ==> run.after.chain == before.chain)
      && (loaded.Success? && createChain.Pass? ==>
            run.after.chain == Some(CreateChain(loaded.value, DefaultModel, DefaultK)))
      && run.calls[0] == LoadIndexCall
      && (|run.calls| == 2 <==> loaded.Success?)
  {
  }

  /** With no index directory on disk, startup leaves the server without a chain. */
  lemma StartupWithoutIndex(settings: Settings, disk: Store, loaders: Outcome<Exception>, createChain: Outcome<Exception>)
    requires IndexPath(settings) !in disk
    ensures StartupSpec(settings, Served(None, disk), loaders, createChain).after == Served(None, disk)
  {
  }

  /** A successful /ingest ran all four steps in order, serves a chain over
      exactly the ingested chunks, and reports how many there were. */
  lemma IngestSuccess(settings: Settings, before: Served, xAdminKey: Option<string>, steps: IngestSteps)
    ensures var run := IngestSpec(settings, before, xAdminKey, steps);
      run.response.Success? <==> Api.RequireAdminKey(settings, xAdminKey).Pass? && FirstFailure(steps).None?
    ensures var run := IngestSpec(settings, before, xAdminKey, steps);
      run.response.Success? ==>
        && run.calls == [IngestCall, CreateIndexCall, SaveIndexCall, CreateChainCall]
        && run.response.value == IngestResponse("success", |steps.ingest.value|)
        && run.after.chain.Some?
        && run.after.chain.value.retriever.index.chunks == steps.ingest.value
        && run.after.chain.value.retriever.k == DefaultK
  {
  }

  /** A failed /ingest never changes the served chain. Past the gate, the
      first raise becomes 404 for FileNotFoundError and 500 for anything else,
      with the exception's message as detail. */
  lemma IngestFailureKeepsChain(settings: Settings, before: Served, xAdminKey: Option<string>, steps: IngestSteps)
    ensures var run := IngestSpec(settings, before, xAdminKey, steps);
      run.response.Failure? ==> run.after.chain == before.chain
    ensures var run := IngestSpec(settings, before, xAdminKey, steps);
      Api.RequireAdminKey(settings, xAdminKey).Pass? && FirstFailure(steps).Some? ==>
        var e := FirstFailure(steps).value;
        && run.response == Failure(HttpError(if e.FileNotFoundError? then 404 else 500, e.message))
        && run.response.error.status in {404, 500}
  {
  }

  /** A rejected admin key stops /ingest before any collaborator runs. */
  lemma IngestGateFirst(settings: Settings, before: Served, xAdminKey: Option<string>, steps: IngestSteps)
    requires Api.RequireAdminKey(settings, xAdminKey).Fail?
    ensures IngestSpec(settings, before, xAdminKey, steps) ==
      IngestRun(Failure(Api.RequireAdminKey(settings, xAdminKey).error), before, [])
  {
  }

  /** When only `create_chain` raises, the new index is already on disk while
      the old chain keeps serving: the 500 is reported, and a later load of
      the directory returns the new index unless the library calls inside
      `load_index` raise. */
  lemma IngestChainFailureLeavesNewIndex(settings: Settings, before: Served, xAdminKey: Option<string>, steps: IngestSteps,
                                         loaders: Outcome<Exception>)
    requires Api.RequireAdminKey(settings, xAdminKey).Pass?
    requires steps.ingest.Success? && steps.createIndex.Pass? && steps.saveIndex.Pass? && steps.createChain.Fail?
    ensures var run := IngestSpec(settings, before, xAdminKey, steps);
      var index := CreateIndex(settings, steps.ingest.value, settings.embeddingsModel);
      && run.response.Failure?
      && run.after.chain == before.chain
      && LoadIndex(settings, run.after.disk, IndexPath(settings), settings.embeddingsModel, loaders)
           == if loaders.Pass? then Success(index) else Failure(loaders.error)
  {
    SaveLoadRoundTrip(settings, before.disk, steps.ingest.value, settings.embeddingsModel, IndexPath(settings), loaders);
  }

  /** Ingest, then restart: when neither the library calls of `load_index`
      nor `create_chain` raise, the fresh server's startup serves exactly the
      chain the successful /ingest had installed; when either raises, it
      serves none. */
  lemma IngestThenRestart(settings: Settings, before: Served, xAdminKey: Option<string>, steps: IngestSteps,
                          loaders: Outcome<Exception>, createChain: Outcome<Exception>)
    requires IngestSpec(settings, before, xAdminKey, steps).response.Success?
    ensures var after := IngestSpec(settings, before, xAdminKey, steps).after;
      StartupSpec(settings, Served(None, after.disk), loaders, createChain).after.chain
        == if loaders.Pass? && createChain.Pass? then after.chain else None
  {
    SaveLoadRoundTrip(settings, before.disk, steps.ingest.value, settings.embeddingsModel, IndexPath(settings), loaders);
  }

  /** /query: a rejected key is answered before anything else; with no chain
      the answer is 400 and no collaborator runs; otherwise the response is
      the query's, and its raise is a 500 carrying the message. */
  lemma QueryOutcomes(settings: Settings, chain: Option<Chain>, request: QueryRequest, xApiKey: Option<string>,
                      retrieve: RetrieveFn, retrieveInChain: RetrieveFn,
                      generate: GenerateFn)
    ensures var route := QuerySpec(settings, chain, request, xApiKey, retrieve, retrieveInChain, generate);
      var gate := Api.RequireApiKey(settings, xApiKey);
      && (gate.Fail? ==> route == QueryRoute(Failure(gate.error), []))
      && (gate.Pass? && chain.None? ==> route == QueryRoute(Failure(NoIndexLoaded), []))
      && (gate.Pass? && chain.Some? ==>
            var run := Query(chain.value, request.question, retrieve, retrieveInChain, generate);
            && route.calls == run.calls
            && (route.response.Success? <==> run.outcome.Success?)
            && (route.response.Success? ==> route.response.value == run.outcome.value)
            && (route.response.Failure? ==> route.response.error == HttpError(500, run.outcome.error.message)))
  {
  }

  /** The requested `k` is never passed on: two requests that differ only in
      `k` get the same response. */
  lemma QueryIgnoresK(settings: Settings, chain: Option<Chain>, question: string, k1: int, k2: int, xApiKey: Option<string>,
                      retrieve: RetrieveFn, retrieveInChain: RetrieveFn,
                      generate: GenerateFn)
    ensures QuerySpec(settings, chain, QueryRequest(question, k1), xApiKey, retrieve, retrieveInChain, generate)
         == QuerySpec(settings, chain, QueryRequest(question, k2), xApiKey, retrieve, retrieveInChain, generate)
  {
  }

  /** The running service: the module-global `chain` and the disk it persists to. */
  class Server {
    const settings: Settings
    var chain: Option<Chain>
    var disk: Store

    /** Import time: no chain yet. */
    constructor (settings: Settings, disk: Store)
      ensures this.settings == settings && this.disk == disk && chain == None
    {
      this.settings := settings;
      this.disk := disk;
      chain := None;
    }

    method Startup(loaders: Outcome<Exception>, createChain: Outcome<Exception>) returns (ghost calls: seq<Call>)
      modifies this
      ensures var run := StartupSpec(settings, old(Served(chain, disk)), loaders, createChain);
        Served(chain, disk) == run.after && calls == run.calls
    {
      var loaded := LoadIndex(settings, disk, IndexPath(settings), settings.embeddingsModel, loaders);
      calls := [LoadIndexCall];
      if loaded.Failure? {
        return;
      }
      calls := calls + [CreateChainCall];
      if createChain.Fail? {
        return;
      }
      chain := Some(CreateChain(loaded.value, DefaultModel, DefaultK));
    }

    method IngestDocuments(xAdminKey: Option<string>, steps: IngestSteps)
      returns (r: Result<IngestResponse, HttpError>, ghost calls: seq<Call>)
      modifies this
      ensures var run := IngestSpec(settings, old(Served(chain, disk)), xAdminKey, steps);
        r == run.response && Served(chain, disk) == run.after && calls == run.calls
    {
      var gate := Api.RequireAdminKey(settings, xAdminKey);
      if gate.Fail? {
        return Failure(gate.error), [];
      }
      calls := [IngestCall];
      if steps.ingest.Failure? {
        return Failure(ErrorFor(steps.ingest.error)), calls;
      }
      var chunks := steps.ingest.value;
      calls := calls + [CreateIndexCall];
      if steps.createIndex.Fail? {
        return Failure(ErrorFor(steps.createIndex.error)), calls;
      }
      var index := CreateIndex(settings, chunks, settings.embeddingsModel);
      calls := calls + [SaveIndexCall];
      if steps.saveIndex.Fail? {
        return Failure(ErrorFor(steps.saveIndex.error)), calls;
      }
      disk := SaveIndex(settings, disk, index, IndexPath(settings));
      calls := calls + [CreateChainCall];
      if steps.createChain.Fail? {
        return Failure(ErrorFor(steps.createChain.error)), calls;
      }
      chain := Some(CreateChain(index, DefaultModel, DefaultK));
      r := Success(IngestResponse("success", |chunks|));
    }

    /** /query reads `chain` and changes nothing. */
    method QueryRag(request: QueryRequest, xApiKey: Option<string>,
                    retrieve: RetrieveFn, retrieveInChain: RetrieveFn,
                    generate: GenerateFn)
      returns (r: Result<QueryResponse, HttpError>, ghost calls: seq<Invocation>)
      ensures r == QuerySpec(settings, chain, request, xApiKey, retrieve, retrieveInChain, generate).response
      ensures calls == QuerySpec(settings, chain, request, xApiKey, retrieve, retrieveInChain, generate).calls
    {
      var gate := Api.RequireApiKey(settings, xApiKey);
      if gate.Fail? {
        return Failure(gate.error), [];
      }
      if chain.None? {
        return Failure(NoIndexLoaded), [];
      }
      var run := Query(chain.value, request.question, retrieve, retrieveInChain, generate);
      calls := run.calls;
      if run.outcome.Failure? {
        return Failure(HttpError(500, run.outcome.error.message)), calls;
      }
      r := Success(run.outcome.value);
    }

    /** /health: always "ok", and whether a chain is being served. */
    function Health(): (h: HealthResponse)
      reads this
      ensures h.status == "ok"
      ensures h.indexLoaded <==> chain.Some?
    {
      HealthResponse("ok", chain.Some?)
    }
  }
}
