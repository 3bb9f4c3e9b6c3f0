/** src/embeddings.py: choosing the embedding backend, building the vector
    index, and persisting it with a `{provider, model}` record that a later
    load checks against the current settings. The vector store itself is
    opaque: an index is the chunks it was built from and the backend that
    embedded them. The filesystem is a map from directory to what it holds. */
module Embeddings {
  import opened Common
  import opened Config

  /** The two embedding backends and the arguments they are built with. */
  datatype Embedder =
    | OpenAIEmbeddings(model: string, apiKey: string)
    | HuggingFaceEmbeddings(modelName: string, device: Device)

  /** The model an embedder was built with, whichever backend. */
  function EmbedderModel(e: Embedder): string
  {
    match e
    case OpenAIEmbeddings(m, _) => m
    case HuggingFaceEmbeddings(m, _) => m
  }

  /** A FAISS index: the chunks it holds and the embedder that vectorised them. */
  datatype Index = Index(chunks: seq<Doc>, embedder: Embedder)

  /** The record `save_index` writes next to the index. */
  datatype IndexMetadata = IndexMetadata(provider: string, model: string)

  /** What an existing index directory holds: the FAISS files (when present)
      and `metadata.json` (when present). */
  datatype IndexDir = IndexDir(saved: Option<seq<Doc>>, metadata: Option<IndexMetadata>)

  /** The directories that exist on disk. */
  type Store = map<string, IndexDir>

  /** The error `FAISS.load_local` raises when the index files are absent;
      the library's own wording is not modelled. */
  const MissingIndexFiles := Other("")

  /** `get_embeddings`: an absent or empty argument falls back to the
      settings; "openai" and "sentence_transformers" select a backend and
      any other provider raises ValueError. */
  function GetEmbeddings(settings: Settings, provider: Option<string>, modelName: Option<string>)
    : (r: Result<Embedder, Exception>)
    ensures var p := OrElse(provider, ProviderName(settings.embeddingsProvider));
      && (r.Success? <==> p == "openai" || p == "sentence_transformers")
      && (r.Success? ==> EmbedderModel(r.value) == OrElse(modelName, settings.embeddingsModel))
      && (p == "openai" ==> r.Success? && r.value.OpenAIEmbeddings? && r.value.apiKey == settings.openaiApiKey)
      && (p == "sentence_transformers" ==> r.Success? && r.value.HuggingFaceEmbeddings? && r.value.device == settings.device)
      && (r.Failure? ==> r.error == ValueError("Unknown provider: " + p))
  {
    var p := OrElse(provider, ProviderName(settings.embeddingsProvider));
    var m := OrElse(modelName, settings.embeddingsModel);
    if p == "openai" then Success(OpenAIEmbeddings(m, settings.openaiApiKey))
    else if p == "sentence_transformers" then Success(HuggingFaceEmbeddings(m, settings.device))
    else Failure(ValueError("Unknown provider: " + p))
  }

  /** Without a provider argument the settings' provider is used, and it always
      names a backend: the call cannot fail, and the backend matches it. */
  lemma DefaultProviderResolves(settings: Settings, modelName: Option<string>)
    ensures var r := GetEmbeddings(settings, None, modelName);
      && r.Success?
      && (r.value.OpenAIEmbeddings? <==> settings.embeddingsProvider == OpenAI)
  {
    assert "openai" != "sentence_transformers";
  }

  /** An empty argument is the same as no argument. */
  lemma EmptyArgumentsFallBack(settings: Settings)
    ensures GetEmbeddings(settings, Some(""), Some("")) == GetEmbeddings(settings, None, None)
  {
  }

  /** `create_index`: embed the chunks with the settings' provider and the
      given model. */
  function CreateIndex(settings: Settings, chunks: seq<Doc>, modelName: string): (index: Index)
    ensures index.chunks == chunks
    ensures EmbedderModel(index.embedder) == OrElse(Some(modelName), settings.embeddingsModel)
    ensures index.embedder.OpenAIEmbeddings? <==> settings.embeddingsProvider == OpenAI
  {
    DefaultProviderResolves(settings, Some(modelName));
    Index(chunks, GetEmbeddings(settings, None, Some(modelName)).value)
  }

  /** The record `save_index` writes: the current settings, not the index's
      own embedder. */
  function CurrentMetadata(settings: Settings): (m: IndexMetadata)
    ensures m.provider in {"sentence_transformers", "openai"}
    ensures m.model == settings.embeddingsModel
  {
    NamesAreLiterals(settings.env, settings.env, settings.embeddingsProvider, settings.embeddingsProvider,
                     settings.device, settings.device);
    IndexMetadata(ProviderName(settings.embeddingsProvider), settings.embeddingsModel)
  }

  /** Two settings write the same record exactly when they agree on the
      provider and the model. */
  lemma MetadataIdentifiesSettings(s: Settings, t: Settings)
    ensures CurrentMetadata(s) == CurrentMetadata(t) <==>
      s.embeddingsProvider == t.embeddingsProvider && s.embeddingsModel == t.embeddingsModel
  {
    NamesAreLiterals(s.env, t.env, s.embeddingsProvider, t.embeddingsProvider, s.device, t.device);
  }

  /** `save_index`: create the directory, write the index files and the
      metadata record; no other directory changes. */
  function SaveIndex(settings: Settings, store: Store, index: Index, indexDir: string): (r: Store)
    ensures indexDir in r && r[indexDir] == IndexDir(Some(index.chunks), Some(CurrentMetadata(settings)))
    ensures r.Keys == store.Keys + {indexDir}
    ensures forall d :: d in store && d != indexDir ==> r[d] == store[d]
  {
    store[indexDir := IndexDir(Some(index.chunks), Some(CurrentMetadata(settings)))]
  }

  /** `load_index`: a missing directory raises FileNotFoundError first; then a
      record, when there is one, must name the current provider and then the
      current model; then the embedder for `modelName` is built and the index
      files are read. Those two library calls are opaque: `loaders` is what
      they raise, if anything, when the files are there to read. */
  function LoadIndex(settings: Settings, store: Store, indexDir: string, modelName: string,
                     loaders: Outcome<Exception>): (r: Result<Index, Exception>)
    ensures indexDir !in store ==>
      r == Failure(FileNotFoundError("Index not found at " + indexDir + ". Run create_index first."))
    ensures r.Success? ==> indexDir in store && store[indexDir].saved == Some(r.value.chunks) && loaders.Pass?
    ensures r.Success? ==> r.value.embedder == CreateIndex(settings, r.value.chunks, modelName).embedder
    ensures loaders.Fail? ==> r.Failure?
    ensures r.Success? ==>
      store[indexDir].metadata.None? || store[indexDir].metadata == Some(CurrentMetadata(settings))
  {
    if indexDir !in store then
      Failure(FileNotFoundError("Index not found at " + indexDir + ". Run create_index first."))
    else
      var dir := store[indexDir];
      var current := CurrentMetadata(settings);
      if dir.metadata.Some? && dir.metadata.value.provider != current.provider then
        Failure(ValueError("Index was created with " + dir.metadata.value.provider
          + ", but current provider is " + current.provider))
      else if dir.metadata.Some? && dir.metadata.value.model != current.model then
        Failure(ValueError("Index was created with " + dir.metadata.value.model
          + ", but current model is " + current.model))
      else if loaders.Fail? then
        Failure(loaders.error)
      else if dir.saved.None? then
        Failure(MissingIndexFiles)
      else
        Success(CreateIndex(settings, dir.saved.value, modelName))
  }

  /** Round trip: an index built and saved under some settings loads back,
      unchanged, under the same settings, unless the library calls raise;
      then the load fails with exactly what they raised. */
  lemma SaveLoadRoundTrip(settings: Settings, store: Store, chunks: seq<Doc>, modelName: string, indexDir: string,
                          loaders: Outcome<Exception>)
    ensures var index := CreateIndex(settings, chunks, modelName);
      LoadIndex(settings, SaveIndex(settings, store, index, indexDir), indexDir, modelName, loaders)
        == if loaders.Pass? then Success(index) else Failure(loaders.error)
  {
  }

  /** Saving one directory leaves loading from every other directory as it was. */
  lemma SaveIsolatesDirectories(settings: Settings, store: Store, index: Index, indexDir: string, other: string, modelName: string,
                                loaders: Outcome<Exception>)
    requires other != indexDir
    ensures LoadIndex(settings, SaveIndex(settings, store, index, indexDir), other, modelName, loaders)
         == LoadIndex(settings, store, other, modelName, loaders)
  {
  }

  /** An index saved under one provider is refused under the other, and the
      provider message wins even when the models differ too and before any
      library call could raise. */
  lemma ProviderCheckedFirst(saver: Settings, loader: Settings, store: Store, index: Index, indexDir: string, modelName: string,
                             loaders: Outcome<Exception>)
    requires saver.embeddingsProvider != loader.embeddingsProvider
    ensures LoadIndex(loader, SaveIndex(saver, store, index, indexDir), indexDir, modelName, loaders)
         == Failure(ValueError("Index was created with " + ProviderName(saver.embeddingsProvider)
              + ", but current provider is " + ProviderName(loader.embeddingsProvider)))
  {
    var p, q := ProviderName(saver.embeddingsProvider), ProviderName(loader.embeddingsProvider);
    assert p[0] != q[0];
  }

  /** Same provider, different model: refused with the model message. */
  lemma ModelMismatchRejected(saver: Settings, loader: Settings, store: Store, index: Index, indexDir: string, modelName: string,
                              loaders: Outcome<Exception>)
    requires saver.embeddingsProvider == loader.embeddingsProvider
    requires saver.embeddingsModel != loader.embeddingsModel
    ensures LoadIndex(loader, SaveIndex(saver, store, index, indexDir), indexDir, modelName, loaders)
         == Failure(ValueError("Index was created with " + saver.embeddingsModel
              + ", but current model is " + loader.embeddingsModel))
  {
  }

  /** Without a metadata record nothing is checked: index files saved by
      anyone load under any settings. */
  lemma NoMetadataSkipsCheck(settings: Settings, store: Store, indexDir: string, chunks: seq<Doc>, modelName: string)
    requires indexDir in store && store[indexDir] == IndexDir(Some(chunks), None)
    ensures LoadIndex(settings, store, indexDir, modelName, Pass) == Success(CreateIndex(settings, chunks, modelName))
  {
  }

  /** The compatibility check reads the settings' model, never the
      `model_name` argument: for the same library outcome, whether a load is
      refused, and why, does not depend on that argument. */
  lemma CheckIgnoresModelName(settings: Settings, store: Store, indexDir: string, m1: string, m2: string,
                              loaders: Outcome<Exception>)
    ensures LoadIndex(settings, store, indexDir, m1, loaders).Failure? <==> LoadIndex(settings, store, indexDir, m2, loaders).Failure?
    ensures LoadIndex(settings, store, indexDir, m1, loaders).Failure? ==>
      LoadIndex(settings, store, indexDir, m1, loaders) == LoadIndex(settings, store, indexDir, m2, loaders)
  {
  }
}
