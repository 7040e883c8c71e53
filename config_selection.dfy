// How the backend API server picks its speech-recognition and embedding
// configurations from the environment.  The environment is a map from
// variable name to value; the embedding functions are named, not called.
module ConfigSelection {
  import opened Common

  type Env = map<string, string>

  /** `os.getenv(name, default)`. */
  function GetEnv(env: Env, name: string, default: string): string
  {
    if name in env then env[name] else default
  }

  /** `int(text)` on ASCII input: surrounding whitespace, an optional sign, decimal digits. */
  function PyInt(text: string): Option<int>
  {
    ParseInt(Strip(text))
  }

  /** The ASR configurations `get_asr_config` produces. */
  datatype AsrConfig =
    | AsrLocal(model: string, device: string)
    | AsrApi(model: string, apiKey: Option<string>, baseUrl: string, maxConcurrent: int)

  const DefaultAsr := AsrLocal("large-v3", "cpu")

  function AsrMode(env: Env): string
  {
    ToLower(Strip(GetEnv(env, "ASR_MODE", "local")))
  }

  /**
   * `get_asr_config`: "local" reads model and device; "api" reads model,
   * key, base URL and an integer concurrency, and an unparsable concurrency
   * falls to the handler's local default; any other mode is demoted to
   * local with the configured model on the CPU.
   */
  function GetAsrConfig(env: Env): (r: AsrConfig)
    ensures r.AsrApi? <==> AsrMode(env) == "api" && PyInt(GetEnv(env, "ASR_MAX_CONCURRENT", "5")).Some?
    ensures r.AsrApi? ==>
              r == AsrApi(GetEnv(env, "ASR_MODEL", "paraformer-realtime-v2"), EnvOpt(env, "ALI_DASHSCOPE_API_KEY"),
                          GetEnv(env, "ALI_DASHSCOPE_BASE_URL", "https://dashscope.aliyuncs.com/compatible-mode/v1"),
                          PyInt(GetEnv(env, "ASR_MAX_CONCURRENT", "5")).value)
    ensures AsrMode(env) == "api" && r.AsrLocal? ==> r == DefaultAsr
    ensures AsrMode(env) != "api" && AsrMode(env) != "local" ==> r == AsrLocal(GetEnv(env, "ASR_MODEL", "large-v3"), "cpu")
    ensures AsrMode(env) == "local" ==> r == AsrLocal(GetEnv(env, "ASR_MODEL", "large-v3"), GetEnv(env, "ASR_DEVICE", "cpu"))
  {
    var mode := AsrMode(env);
    if mode == "local" then
      AsrLocal(GetEnv(env, "ASR_MODEL", "large-v3"), GetEnv(env, "ASR_DEVICE", "cpu"))
    else if mode == "api" then
      match PyInt(GetEnv(env, "ASR_MAX_CONCURRENT", "5"))
      case None => DefaultAsr
      case Some(n) =>
        AsrApi(GetEnv(env, "ASR_MODEL", "paraformer-realtime-v2"),
               EnvOpt(env, "ALI_DASHSCOPE_API_KEY"),
               GetEnv(env, "ALI_DASHSCOPE_BASE_URL", "https://dashscope.aliyuncs.com/compatible-mode/v1"), n)
    else AsrLocal(GetEnv(env, "ASR_MODEL", "large-v3"), "cpu")
  }

  /** The default mode "local" is already stripped and lower-case. */
  lemma LocalIsLower(s: string)
    requires s == "local"
    ensures ToLower(Strip(s)) == s
  {
    assert s[0] == 'l' && s[|s| - 1] == 'l';
    assert Strip(s) == s;
    assert forall k :: 0 <= k < |s| ==> !('A' <= s[k] <= 'Z');
    LowerUnchanged(s);
  }

  /** Without ASR_MODE the server transcribes locally, with large-v3 on the CPU unless told otherwise. */
  lemma AsrDefaultIsLocal(env: Env)
    requires "ASR_MODE" !in env
    ensures GetAsrConfig(env) == AsrLocal(GetEnv(env, "ASR_MODEL", "large-v3"), GetEnv(env, "ASR_DEVICE", "cpu"))
    ensures "ASR_MODEL" !in env && "ASR_DEVICE" !in env ==> GetAsrConfig(env) == DefaultAsr
  {
    LocalIsLower(GetEnv(env, "ASR_MODE", "local"));
  }

  /** The embedding function a configuration names. */
  datatype Provider = OpenAiEmbedding | DashScopeEmbedding | AzureOpenAiEmbedding

  datatype EmbeddingConfig = EmbeddingConfig(
    provider: Provider, modelName: string, dim: int, apiKey: Option<string>, baseUrl: string)

  /** What `set_dashscope_embedding_config` receives, when it is called. */
  datatype DashScopeSetting = DashScopeSetting(apiKey: string, baseUrl: string)

  /** The handler's fallback: OpenAI with its own key and base URL. */
  function DefaultEmbedding(env: Env): EmbeddingConfig
  {
    EmbeddingConfig(OpenAiEmbedding, "text-embedding-3-small", 1536,
                    if "OPENAI_API_KEY" in env then Some(env["OPENAI_API_KEY"]) else None,
                    GetEnv(env, "OPENAI_BASE_URL", "https://api.openai.com/v1"))
  }

  function EmbeddingUrl(env: Env): string
  {
    GetEnv(env, "EMBEDDING_BASE_URL", "https://dashscope.aliyuncs.com/compatible-mode/v1")
  }

  /** Python truthiness of an optional string. */
  function Truthy(v: Option<string>): bool { v.Some? && |v.value| > 0 }

  function EnvOpt(env: Env, name: string): Option<string>
  {
    if name in env then Some(env[name]) else None
  }

  /** Which branch of `get_embedding_config` a base URL takes. */
  datatype UrlKind = OpenAiUrl | DashScopeUrl | AzureUrl | OtherUrl

  function ClassifyUrl(url: string): UrlKind
  {
    if Contains(url, "openrouter.ai") || Contains(url, "api.openai.com") then OpenAiUrl
    else if Contains(url, "dashscope.aliyuncs.com") then DashScopeUrl
    else if Contains(ToLower(url), "azure") then AzureUrl
    else OtherUrl
  }

  /**
   * The branch-specific part of `get_embedding_config` as its authors meant
   * it: each provider fixes its dimension and replaces an empty or foreign
   * default model name.
   */
  function ProviderConfig(env: Env, kind: UrlKind, dim0: int): (r: (EmbeddingConfig, Option<DashScopeSetting>))
  {
    var url := EmbeddingUrl(env);
    var key := EnvOpt(env, "EMBEDDING_API_KEY");
    var name := GetEnv(env, "EMBEDDING_MODEL_NAME", "text-embedding-3-small");
    match kind
    case OpenAiUrl =>
      (EmbeddingConfig(OpenAiEmbedding,
         if |name| == 0 || name == "text-embedding-4" then "text-embedding-3-small" else name, 1536, key, url), None)
    case DashScopeUrl =>
      var dashKey := if Truthy(key) then key else EnvOpt(env, "ALI_DASHSCOPE_API_KEY");
      (EmbeddingConfig(DashScopeEmbedding,
         if |name| == 0 || name == "text-embedding-3-small" then "text-embedding-v4" else name, 1024, key, url),
       if Truthy(dashKey) then Some(DashScopeSetting(dashKey.value, url)) else None)
    case AzureUrl =>
      (EmbeddingConfig(AzureOpenAiEmbedding,
         if |name| == 0 || StartsWith(name, "text-embedding") then "text-embedding-ada-002" else name, 1536, key, url), None)
    case OtherUrl =>
      (EmbeddingConfig(OpenAiEmbedding,
         if |name| == 0 || name == "text-embedding-4" then "text-embedding-3-small" else name, 1536, key, url), None)
  }

  /**
   * `get_embedding_config` as written: the Azure branch names
   * `azure_openai_embedding`, which the module never defines or imports, so
   * that branch raises NameError and the handler returns the OpenAI
   * default.  An unparsable EMBEDDING_MODEL_DIM lands there too.
   */
  function GetEmbeddingConfigAsWritten(env: Env): (r: (EmbeddingConfig, Option<DashScopeSetting>))
  {
    match PyInt(GetEnv(env, "EMBEDDING_MODEL_DIM", "1536"))
    case None => (DefaultEmbedding(env), None)
    case Some(dim0) =>
      var kind := ClassifyUrl(EmbeddingUrl(env));
      if kind == AzureUrl then (DefaultEmbedding(env), None)
      else ProviderConfig(env, kind, dim0)
  }

  /** `get_embedding_config` with the Azure branch working as its code reads. */
  function GetEmbeddingConfig(env: Env): (r: (EmbeddingConfig, Option<DashScopeSetting>))
  {
    match PyInt(GetEnv(env, "EMBEDDING_MODEL_DIM", "1536"))
    case None => (DefaultEmbedding(env), None)
    case Some(dim0) => ProviderConfig(env, ClassifyUrl(EmbeddingUrl(env)), dim0)
  }

  /** The shape every provider branch gives its configuration. */
  predicate WellShaped(r: (EmbeddingConfig, Option<DashScopeSetting>))
  {
    var (c, dashScope) := r;
    (c.dim == 1024 <==> c.provider == DashScopeEmbedding) &&
    (c.dim == 1024 || c.dim == 1536) &&
    |c.modelName| > 0 &&
    (dashScope.Some? ==> c.provider == DashScopeEmbedding && dashScope.value.baseUrl == c.baseUrl)
  }

  lemma ProviderConfigShape(env: Env, kind: UrlKind, dim0: int)
    ensures WellShaped(ProviderConfig(env, kind, dim0))
    ensures kind == AzureUrl ==> ProviderConfig(env, kind, dim0).0.provider == AzureOpenAiEmbedding
  {
  }

  /**
   * Whatever the environment says, the dimension is the provider's fixed
   * one (1024 exactly for DashScope, 1536 otherwise), the model name is
   * never empty, and the DashScope key is set only for DashScope URLs.
   */
  lemma EmbeddingConfigShape(env: Env)
    ensures WellShaped(GetEmbeddingConfig(env))
    ensures WellShaped(GetEmbeddingConfigAsWritten(env))
  {
    var d := PyInt(GetEnv(env, "EMBEDDING_MODEL_DIM", "1536"));
    var kind := ClassifyUrl(EmbeddingUrl(env));
    if d.Some? {
      ProviderConfigShape(env, kind, d.value);
    }
  }

  /** The Azure branch as intended: Azure's function, its default model, 1536 dimensions. */
  lemma AzureUrlIntended(env: Env)
    requires ClassifyUrl(EmbeddingUrl(env)) == AzureUrl
    requires PyInt(GetEnv(env, "EMBEDDING_MODEL_DIM", "1536")).Some?
    requires "EMBEDDING_MODEL_NAME" !in env
    ensures GetEmbeddingConfig(env).0 ==
            EmbeddingConfig(AzureOpenAiEmbedding, "text-embedding-ada-002", 1536,
                            EnvOpt(env, "EMBEDDING_API_KEY"), EmbeddingUrl(env))
  {
    var d := PyInt(GetEnv(env, "EMBEDDING_MODEL_DIM", "1536"));
    assert GetEmbeddingConfig(env) == ProviderConfig(env, AzureUrl, d.value);
    AzureDefaultModel(env, d.value);
  }

  lemma AzureDefaultModel(env: Env, dim0: int)
    requires "EMBEDDING_MODEL_NAME" !in env
    ensures ProviderConfig(env, AzureUrl, dim0).0.modelName == "text-embedding-ada-002"
  {
    assert GetEnv(env, "EMBEDDING_MODEL_NAME", "text-embedding-3-small") == "text-embedding-3-small";
    assert StartsWith("text-embedding-3-small", "text-embedding");
  }

  /**
   * As written, an Azure URL never reaches the Azure function: the result
   * is the OpenAI default, with OPENAI_API_KEY and OPENAI_BASE_URL instead
   * of the embedding variables; with a parsable dimension the intended
   * function would have named Azure's.
   */
  lemma AzureUrlFallsBack(env: Env)
    requires ClassifyUrl(EmbeddingUrl(env)) == AzureUrl
    ensures GetEmbeddingConfigAsWritten(env).0 == DefaultEmbedding(env)
    ensures PyInt(GetEnv(env, "EMBEDDING_MODEL_DIM", "1536")).Some? ==>
              GetEmbeddingConfig(env).0.provider == AzureOpenAiEmbedding
  {
    var d := PyInt(GetEnv(env, "EMBEDDING_MODEL_DIM", "1536"));
    if d.Some? {
      ProviderConfigShape(env, AzureUrl, d.value);
    }
  }

  /** A URL with "azure" in it and no letter 'o' takes the Azure branch. */
  lemma ClassifyAzure(url: string)
    requires 'o' !in url && Contains(ToLower(url), "azure")
    ensures ClassifyUrl(url) == AzureUrl
  {
    NotContainsChar(url, "openrouter.ai", 'o');
    NotContainsChar(url, "api.openai.com", 'o');
    NotContainsChar(url, "dashscope.aliyuncs.com", 'o');
  }

  /** "https://azure" is lower-case, has no 'o' and contains "azure". */
  lemma AzureUrlFacts(url: string)
    requires url == "https://azure"
    ensures 'o' !in url && Contains(ToLower(url), "azure")
  {
    assert forall k :: 0 <= k < |url| ==> url[k] != 'o' && !('A' <= url[k] <= 'Z');
    LowerUnchanged(url);
    ContainsAt(url, "azure", 8);
  }

  /** Stripping a digit string padded with one whitespace character on each side gives the digits back. */
  lemma StripPaddedDigits(d: string, ws: char)
    requires |d| > 0 && AllDigits(d) && IsSpace(ws)
    ensures Strip(d) == d && Strip([ws] + d + [ws]) == d
  {
    var t := [ws] + d + [ws];
    var u := d + [ws];
    assert t[1..] == u;
    assert StripLeft(u) == u;
    assert StripLeft(t) == u;
    assert u[..|u| - 1] == d;
    assert StripRight(u) == StripRight(d);
  }

  /**
   * `int()` of an environment value: a decimal number reads as itself,
   * also with whitespace around it.  NegatedDigits gives the '-' form.
   */
  lemma PyIntReadsNumber(n: nat, ws: char)
    requires IsSpace(ws)
    ensures PyInt(NatToString(n)) == Some(n as int)
    ensures PyInt([ws] + NatToString(n) + [ws]) == Some(n as int)
  {
    var d := NatToString(n);
    ParseNatToString(n);
    assert DigitsValue(d) == n;
    PyIntReadsDigits(d, ws);
  }

  /** A non-empty digit string reads as its value, also with whitespace around it. */
  lemma PyIntReadsDigits(d: string, ws: char)
    requires |d| > 0 && AllDigits(d) && IsSpace(ws)
    ensures PyInt(d) == Some(DigitsValue(d) as int)
    ensures PyInt([ws] + d + [ws]) == Some(DigitsValue(d) as int)
  {
    BareDigits(d, ws);
    PaddedDigits(d, ws);
  }

  /** A digit string reads as its value. */
  lemma BareDigits(d: string, ws: char)
    requires |d| > 0 && AllDigits(d) && IsSpace(ws)
    ensures PyInt(d) == Some(DigitsValue(d) as int)
  {
    StripPaddedDigits(d, ws);
  }

  /** A digit string with whitespace on both sides reads as its value. */
  lemma PaddedDigits(d: string, ws: char)
    requires |d| > 0 && AllDigits(d) && IsSpace(ws)
    ensures PyInt([ws] + d + [ws]) == Some(DigitsValue(d) as int)
  {
    StripPaddedDigits(d, ws);
  }

  /** A '-' before a digit string is stripped of nothing and reads as the negated number. */
  lemma NegatedDigits(d: string)
    requires |d| > 0 && AllDigits(d)
    ensures PyInt("-" + d) == Some(-(DigitsValue(d) as int))
  {
    SignedUnstripped(d);
    SignedParses(d);
  }

  /** A signed digit string starts and ends with no whitespace, so `strip()` keeps it. */
  lemma SignedUnstripped(d: string)
    requires |d| > 0 && AllDigits(d)
    ensures Strip("-" + d) == "-" + d
  {
    var m := "-" + d;
    assert m[0] == '-' && m[|m| - 1] == d[|d| - 1];
    assert !IsSpace(m[0]) && !IsSpace(m[|m| - 1]);
  }

  /** `int()` of '-' and digits is the negated value of the digits. */
  lemma SignedParses(d: string)
    requires |d| > 0 && AllDigits(d)
    ensures ParseInt("-" + d) == Some(-(DigitsValue(d) as int))
  {
    var m := "-" + d;
    assert !IsDigit(m[0]);
    assert m[1..] == d;
  }

  lemma DefaultDimParses(s: string)
    requires s == "1536"
    ensures PyInt(s).Some?
  {
    assert s[0] == '1' && s[|s| - 1] == '6';
    assert Strip(s) == s;
    assert forall k :: 0 <= k < |s| ==> IsDigit(s[k]);
  }

  /**
   * The input that shows it: EMBEDDING_BASE_URL = "https://azure" and no
   * EMBEDDING_MODEL_DIM.  As written the server embeds with OpenAI's
   * function; the intended branch names Azure's.
   */
  lemma AzureCounterexample(env: Env)
    requires "EMBEDDING_BASE_URL" in env && env["EMBEDDING_BASE_URL"] == "https://azure"
    requires "EMBEDDING_MODEL_DIM" !in env
    ensures GetEmbeddingConfigAsWritten(env).0.provider == OpenAiEmbedding
    ensures GetEmbeddingConfig(env).0.provider == AzureOpenAiEmbedding
  {
    var url := EmbeddingUrl(env);
    AzureUrlFacts(url);
    ClassifyAzure(url);
    DefaultDimParses(GetEnv(env, "EMBEDDING_MODEL_DIM", "1536"));
    AzureUrlFallsBack(env);
  }
}
