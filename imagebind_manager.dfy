// The shared ImageBind embedder of the API servers: a configuration step,
// an idempotent load and release, and encode calls that are refused until
// the model is loaded and are counted before they are delegated.  The
// neural network itself is foreign code; what it does is an input here.
module ImageBindManager {
  import opened Common

  /**
   * How the load attempt of `ensure_imagebind_loaded` ends once the guard
   * has passed: constructing the network raises, the weights file is
   * missing, reading the weights or moving them to the device raises, or
   * the model comes up on `device`.
   */
  datatype LoadOutcome = ConstructFails | ModelFileMissing | WeightsFail | LoadedOn(device: string)

  /** The manager's fields; `hasEmbedder` stands for `self.embedder is not None`. */
  datatype Embedder = Embedder(
    initialized: bool,
    loaded: bool,
    usage: nat,
    modelPath: Option<string>,
    hasEmbedder: bool,
    config: Option<map<string, Json>>)

  const Fresh := Embedder(false, false, 0, None, false, None)

  /** Python truthiness of `self.model_path`. */
  predicate PathSet(p: Option<string>) { p.Some? && |p.value| > 0 }

  /** What every reachable state satisfies. */
  predicate Inv(s: Embedder)
  {
    (s.initialized <==> s.config.Some?) &&
    (s.initialized <==> s.modelPath.Some?) &&
    (s.loaded ==> s.initialized && s.hasEmbedder)
  }

  /** `initialize`: record the path and a fresh config; loading is left alone. */
  function Configured(s: Embedder, path: string, now: real): (r: Embedder)
    ensures r.initialized && r.modelPath == Some(path) && r.loaded == s.loaded && r.usage == s.usage
  {
    s.(modelPath := Some(path),
       config := Some(map["model_path" := JStr(path), "configured_at" := JNum(now)]),
       initialized := true)
  }

  /** `ensure_imagebind_loaded`. */
  function Load(s: Embedder, outcome: LoadOutcome, now: real): (r: (Result<bool, PyError>, Embedder))
    requires Inv(s)
    ensures s.loaded ==> r == (Ok(true), s)
    ensures !s.loaded && !(s.initialized && PathSet(s.modelPath)) ==> r == (Err(RuntimeError("ImageBind not initialized with model path")), s)
    ensures r.0.Ok? <==> s.loaded || (s.initialized && PathSet(s.modelPath) && outcome.LoadedOn?)
    ensures r.0.Ok? ==> r.0.value && r.1.loaded
    ensures r.0.Err? ==> r.1.loaded == s.loaded && !r.1.loaded
    ensures r.1.usage == s.usage && r.1.initialized == s.initialized && r.1.modelPath == s.modelPath
  {
    if s.loaded then (Ok(true), s)
    else if !s.initialized || !PathSet(s.modelPath) then
      (Err(RuntimeError("ImageBind not initialized with model path")), s)
    else
      match outcome
      case ConstructFails => (Err(RuntimeError("ImageBind construction failed")), s)
      case ModelFileMissing =>
        (Err(FileNotFoundError("ImageBind model not found at: " + s.modelPath.value)), s.(hasEmbedder := true))
      case WeightsFail => (Err(RuntimeError("ImageBind weights failed to load")), s.(hasEmbedder := true))
      case LoadedOn(device) =>
        (Ok(true), s.(hasEmbedder := true, loaded := true,
                      config := Some(s.config.value["device" := JStr(device)]["loaded_at" := JNum(now)])))
  }

  /** `release_imagebind`: a no-op unless loaded; otherwise drop the model. */
  function Release(s: Embedder): (r: Embedder)
    ensures !r.loaded
    ensures !s.loaded ==> r == s
    ensures s.loaded ==> r == s.(hasEmbedder := false, loaded := false)
  {
    if !s.loaded then s else s.(hasEmbedder := false, loaded := false)
  }

  /**
   * `encode_video_segments` / `encode_string_query`: refused unless loaded;
   * otherwise the call is counted first and then delegated, so `delegated`
   * (the foreign encoder's result or exception) is returned as it is.
   */
  function Encode<T>(s: Embedder, delegated: Result<T, PyError>): (r: (Result<T, PyError>, Embedder))
    ensures !s.loaded ==> r == (Err(RuntimeError("ImageBind not loaded")), s)
    ensures s.loaded ==> r == (delegated, s.(usage := s.usage + 1))
  {
    if !s.loaded then (Err(RuntimeError("ImageBind not loaded")), s)
    else (delegated, s.(usage := s.usage + 1))
  }

  /** `cleanup`: release, then forget the configuration. */
  function CleanedUp(s: Embedder): (r: Embedder)
    ensures !r.loaded && !r.initialized && r.modelPath.None? && r.config.None? && r.usage == s.usage
  {
    Release(s).(initialized := false, modelPath := None, config := None)
  }

  lemma InvPreserved(s: Embedder, path: string, outcome: LoadOutcome, now: real)
    requires Inv(s)
    ensures Inv(Fresh)
    ensures Inv(Configured(s, path, now))
    ensures Inv(Load(s, outcome, now).1)
    ensures Inv(Release(s))
    ensures Inv(CleanedUp(s))
  {
  }

  /** A second load after a successful one changes nothing and answers True. */
  lemma LoadIdempotent(s: Embedder, first: LoadOutcome, second: LoadOutcome, now: real, later: real)
    requires Inv(s) && Load(s, first, now).0.Ok?
    ensures var t := Load(s, first, now).1;
            Inv(t) && Load(t, second, later) == (Ok(true), t)
  {
    InvPreserved(s, "", first, now);
  }

  /** Releasing twice is releasing once. */
  lemma ReleaseIdempotent(s: Embedder)
    ensures Release(Release(s)) == Release(s)
  {
  }

  /** After `cleanup`, loading is refused until `initialize` runs again. */
  lemma CleanupThenLoadRefused(s: Embedder, outcome: LoadOutcome, now: real)
    requires Inv(s)
    ensures Inv(CleanedUp(s)) && Load(CleanedUp(s), outcome, now).0 == Err(RuntimeError("ImageBind not initialized with model path"))
  {
  }

  /** Encode a run of calls, each with the foreign encoder's outcome. */
  function EncodeAll<T>(s: Embedder, outcomes: seq<Result<T, PyError>>): Embedder
    decreases |outcomes|
  {
    if |outcomes| == 0 then s else EncodeAll(Encode(s, outcomes[0]).1, outcomes[1..])
  }

  /**
   * usage_count counts every call made while loaded, whether the foreign
   * encoder succeeded or raised; calls made while not loaded are not counted.
   */
  lemma {:induction false} UsageCountsCalls<T>(s: Embedder, outcomes: seq<Result<T, PyError>>)
    ensures s.loaded ==> EncodeAll(s, outcomes) == s.(usage := s.usage + |outcomes|)
    ensures !s.loaded ==> EncodeAll(s, outcomes) == s
    decreases |outcomes|
  {
    if |outcomes| > 0 {
      UsageCountsCalls(Encode(s, outcomes[0]).1, outcomes[1..]);
    }
  }

  /** The manager object; its fields are updated by its methods. */
  class GlobalImageBindManager {
    var isInitialized: bool
    var isLoaded: bool
    var usageCount: nat
    var modelPath: Option<string>
    var hasEmbedder: bool
    var modelConfig: Option<map<string, Json>>

    function State(): Embedder
      reads this
    {
      Embedder(isInitialized, isLoaded, usageCount, modelPath, hasEmbedder, modelConfig)
    }

    predicate Valid()
      reads this
    {
      Inv(State())
    }

    constructor ()
      ensures State() == Fresh && Valid()
    {
      isInitialized, isLoaded, usageCount := false, false, 0;
      modelPath, hasEmbedder, modelConfig := None, false, None;
    }

    method Initialize(path: string, now: real) returns (ok: bool)
      requires Valid()
      modifies this
      ensures ok && Valid() && State() == Configured(old(State()), path, now)
    {
      modelPath := Some(path);
      modelConfig := Some(map["model_path" := JStr(path), "configured_at" := JNum(now)]);
      isInitialized := true;
      ok := true;
    }

    method EnsureImageBindLoaded(outcome: LoadOutcome, now: real) returns (r: Result<bool, PyError>)
      requires Valid()
      modifies this
      ensures Valid() && (r, State()) == Load(old(State()), outcome, now)
    {
      if isLoaded {
        return Ok(true);
      }
      if !isInitialized || !PathSet(modelPath) {
        return Err(RuntimeError("ImageBind not initialized with model path"));
      }
      if outcome.ConstructFails? {
        return Err(RuntimeError("ImageBind construction failed"));
      }
      hasEmbedder := true;
      if outcome.ModelFileMissing? {
        return Err(FileNotFoundError("ImageBind model not found at: " + modelPath.value));
      }
      if outcome.WeightsFail? {
        return Err(RuntimeError("ImageBind weights failed to load"));
      }
      modelConfig := Some(modelConfig.value["device" := JStr(outcome.device)]["loaded_at" := JNum(now)]);
      isLoaded := true;
      r := Ok(true);
    }

    method ReleaseImageBind() returns (ok: bool)
      requires Valid()
      modifies this
      ensures ok && Valid() && State() == Release(old(State()))
    {
      if !isLoaded {
        return true;
      }
      hasEmbedder := false;
      isLoaded := false;
      ok := true;
    }

    method EncodeVideoSegments<T>(delegated: Result<T, PyError>) returns (r: Result<T, PyError>)
      requires Valid()
      modifies this
      ensures Valid() && (r, State()) == Encode(old(State()), delegated)
    {
      if !isLoaded {
        return Err(RuntimeError("ImageBind not loaded"));
      }
      usageCount := usageCount + 1;
      r := delegated;
    }

    method EncodeStringQuery<T>(delegated: Result<T, PyError>) returns (r: Result<T, PyError>)
      requires Valid()
      modifies this
      ensures Valid() && (r, State()) == Encode(old(State()), delegated)
    {
      r := EncodeVideoSegments(delegated);
    }

    method Cleanup()
      requires Valid()
      modifies this
      ensures Valid() && State() == CleanedUp(old(State()))
    {
      var _ := ReleaseImageBind();
      isInitialized := false;
      modelPath := None;
      modelConfig := None;
    }
  }
}
