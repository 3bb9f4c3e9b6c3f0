/** The service settings (`Settings` in src/config.py): the enumerated
    fields, their defaults, and the derived location of the persisted index. */
module Config {

  datatype Env = Local | Prod
  datatype EmbeddingsProvider = SentenceTransformers | OpenAI
  datatype Device = Cuda | Cpu

  datatype Settings = Settings(
    env: Env,
    embeddingsProvider: EmbeddingsProvider,
    embeddingsModel: string,
    device: Device,
    docsPath: string,
    defaultK: int,
    defaultModel: string,
    openaiApiKey: string,
    apiKey: string,
    adminApiKey: string)

  /** The settings when no environment variable or `.env` entry overrides them. */
  const Defaults := Settings(
    Local, SentenceTransformers, "sentence-transformers" + "/" + "all-MiniLM-L6-v2", Cuda,
    "./.data", 4, "gpt-4o-mini", "", "", "")

  const IndexRoot := "./.data/index/"

  function EnvName(e: Env): string
  {
    match e
    case Local => "local"
    case Prod => "prod"
  }

  function ProviderName(p: EmbeddingsProvider): string
  {
    match p
    case SentenceTransformers => "sentence_transformers"
    case OpenAI => "openai"
  }

  function DeviceName(d: Device): string
  {
    match d
    case Cuda => "cuda"
    case Cpu => "cpu"
  }

  /** The literal domains: each field's text is one of its two spellings, and
      distinct values have distinct spellings. */
  lemma NamesAreLiterals(e1: Env, e2: Env, p1: EmbeddingsProvider, p2: EmbeddingsProvider, d1: Device, d2: Device)
    ensures EnvName(e1) in {"local", "prod"}
    ensures ProviderName(p1) in {"sentence_transformers", "openai"}
    ensures DeviceName(d1) in {"cuda", "cpu"}
    ensures EnvName(e1) == EnvName(e2) ==> e1 == e2
    ensures ProviderName(p1) == ProviderName(p2) ==> p1 == p2
    ensures DeviceName(d1) == DeviceName(d2) ==> d1 == d2
  {
    if e1 != e2 { assert EnvName(e1)[0] != EnvName(e2)[0]; }
    if p1 != p2 { assert ProviderName(p1)[0] != ProviderName(p2)[0]; }
    if d1 != d2 { assert DeviceName(d1)[1] != DeviceName(d2)[1]; }
  }

  /** The settings defaults of src/config.py. */
  lemma DefaultsAreDocumented()
    ensures EnvName(Defaults.env) == "local"
    ensures ProviderName(Defaults.embeddingsProvider) == "sentence_transformers"
    ensures DeviceName(Defaults.device) == "cuda"
    ensures Defaults.defaultK == 4 && Defaults.defaultModel == "gpt-4o-mini"
    ensures Defaults.apiKey == "" && Defaults.adminApiKey == ""
    ensures Defaults.openaiApiKey == ""
    ensures Defaults.embeddingsModel == "sentence-transformers/all-MiniLM-L6-v2"
    ensures Defaults.docsPath == "./.data"
  {
  }

  /** `s.replace('/', '_')`. */
  function ReplaceSlash(s: string): (r: string)
    ensures |r| == |s|
    ensures forall i :: 0 <= i < |s| ==> (r[i] == '_' <==> s[i] in "/_")
    ensures forall i :: 0 <= i < |s| ==> s[i] !in "/_" ==> r[i] == s[i]
    ensures '/' !in r
  {
    seq(|s|, i requires 0 <= i < |s| => if s[i] == '/' then '_' else s[i])
  }

  /** `Settings.index_path`: one directory per deployment mode and model. */
  function IndexPath(s: Settings): (p: string)
    ensures |p| == |IndexRoot| + |EnvName(s.env)| + 1 + |s.embeddingsModel|
    ensures p[..|IndexRoot|] == IndexRoot
  {
    IndexRoot + EnvName(s.env) + "/" + ReplaceSlash(s.embeddingsModel)
  }

  /** The last path segment is the model with every '/' made '_': same
      length, no '/', and it is exactly the part after the mode segment. */
  lemma IndexPathLastSegment(s: Settings)
    ensures var p := IndexPath(s); var n := |IndexRoot| + |EnvName(s.env)| + 1;
      && p[..n] == IndexRoot + EnvName(s.env) + "/"
      && |p[n..]| == |s.embeddingsModel|
      && '/' !in p[n..]
  {
    var n := |IndexRoot| + |EnvName(s.env)| + 1;
    assert IndexPath(s)[n..] == ReplaceSlash(s.embeddingsModel);
    assert IndexPath(s)[..n] == IndexRoot + EnvName(s.env) + "/";
  }

  /** Distinct deployment modes never share an index directory. */
  lemma IndexPathSeparatesEnvs(s: Settings, t: Settings)
    requires s.env != t.env
    ensures IndexPath(s) != IndexPath(t)
  {
    var k := |IndexRoot|;
    assert IndexPath(s)[k] == EnvName(s.env)[0];
    assert IndexPath(t)[k] == EnvName(t.env)[0];
  }

  /** Two models that differ only by '/' against '_' at the same positions
      share an index directory. */
  lemma IndexPathConflatesSlashAndUnderscore(s: Settings, model: string)
    requires |model| == |s.embeddingsModel|
    requires forall i :: 0 <= i < |model| ==>
      model[i] == s.embeddingsModel[i] || (model[i] in "/_" && s.embeddingsModel[i] in "/_")
    ensures IndexPath(s.(embeddingsModel := model)) == IndexPath(s)
  {
    assert ReplaceSlash(model) == ReplaceSlash(s.embeddingsModel);
  }

  /** With the defaults, the index lives in
      "./.data/index/local/sentence-transformers_all-MiniLM-L6-v2". */
  lemma DefaultIndexPath()
    ensures IndexPath(Defaults) == IndexRoot + "local" + "/" + ("sentence-transformers" + "_" + "all-MiniLM-L6-v2")
  {
    IndexPathOfTwoPartModel(Defaults, "sentence-transformers", "all-MiniLM-L6-v2");
  }

  lemma IndexPathOfTwoPartModel(s: Settings, a: string, b: string)
    requires s.embeddingsModel == a + "/" + b && '/' !in a && '/' !in b
    ensures IndexPath(s) == IndexRoot + EnvName(s.env) + "/" + (a + "_" + b)
  {
    ReplaceOneSlash(a, b);
  }

  lemma ReplaceOneSlash(a: string, b: string)
    requires '/' !in a && '/' !in b
    ensures ReplaceSlash(a + "/" + b) == a + "_" + b
  {
    var r := ReplaceSlash(a + "/" + b);
    assert forall i :: 0 <= i < |r| ==> r[i] == (a + "_" + b)[i];
  }
}
