// The process-wide configuration of the many-core speech-recognition stage:
// it is read from the environment once, on first use, optionally writes the
// thread-count variables back into the environment, and is handed out by
// value afterwards.

module EpycConfig {
  import opened Common
  import opened ConfigSelection

  /** The configuration dictionary `initialize_epyc_once` builds. */
  datatype Config = Config(useEpycOptimization: bool, numModels: int, batchSize: int, workers: int,
                           computeType: string, systemType: string, optimizationLevel: string)

  /** The thread-count variables written when the optimisation is on. */
  const ThreadVars: seq<string> :=
    ["OMP_NUM_THREADS", "MKL_NUM_THREADS", "OPENBLAS_NUM_THREADS", "NUMEXPR_NUM_THREADS", "MALLOC_ARENA_MAX"]

  /**
   * The optimisation is on exactly when USE_EPYC_OPTIMIZATION, lower-cased,
   * is "true" (its default "false" is not).
   */
  predicate UseEpyc(env: Env)
  {
    "USE_EPYC_OPTIMIZATION" in env && ToLower(env["USE_EPYC_OPTIMIZATION"]) == "true"
  }

  /** `int(os.getenv(name, str(default)))`: the default is taken as already read. */
  function IntVar(env: Env, name: string, default: nat): (r: Option<int>)
    ensures name !in env ==> r == Some(default)
  {
    if name in env then PyInt(env[name]) else Some(default)
  }

  /** Reading the default through `int()` gives the default back, so IntVar is `int(os.getenv(name, str(default)))`. */
  lemma IntVarReadsEnv(env: Env, name: string, default: nat)
    ensures IntVar(env, name, default) == PyInt(GetEnv(env, name, NatToString(default)))
  {
    if name !in env {
      ReadNat(default);
    }
  }

  /** The flag with its default spelled out is the same predicate. */
  lemma UseEpycReadsEnv(env: Env)
    ensures UseEpyc(env) <==> ToLower(GetEnv(env, "USE_EPYC_OPTIMIZATION", "false")) == "true"
  {
    if "USE_EPYC_OPTIMIZATION" !in env {
      assert ToLower("false")[0] == 'f';
    }
  }

  /**
   * The configuration read from the environment: the flag, the three
   * integers (8, 32 and 64 when unset) and the compute type ("float32" when
   * unset); a value `int()` refuses is a ValueError.
   */
  function ReadConfig(env: Env): (r: Result<Config, PyError>)
    ensures r.Ok? <==> IntVar(env, "EPYC_NUM_MODELS", 8).Some? &&
                       IntVar(env, "EPYC_BATCH_SIZE", 32).Some? &&
                       IntVar(env, "EPYC_WORKERS", 64).Some?
    ensures r.Err? ==> r.error.ValueError?
    ensures r.Ok? ==> r.value.useEpycOptimization == UseEpyc(env)
    ensures r.Ok? ==> r.value.computeType == GetEnv(env, "EPYC_COMPUTE_TYPE", "float32")
    ensures r.Ok? ==> r.value.systemType == "epyc" && r.value.optimizationLevel == "preconfigured"
    ensures r.Ok? ==> Some(r.value.numModels) == IntVar(env, "EPYC_NUM_MODELS", 8)
    ensures r.Ok? ==> Some(r.value.batchSize) == IntVar(env, "EPYC_BATCH_SIZE", 32)
    ensures r.Ok? ==> Some(r.value.workers) == IntVar(env, "EPYC_WORKERS", 64)
  {
    var models := IntVar(env, "EPYC_NUM_MODELS", 8);
    var batch := IntVar(env, "EPYC_BATCH_SIZE", 32);
    var workers := IntVar(env, "EPYC_WORKERS", 64);
    if models.None? || batch.None? || workers.None? then Err(ValueError("invalid literal for int()"))
    else
      Ok(Config(UseEpyc(env), models.value, batch.value, workers.value,
                GetEnv(env, "EPYC_COMPUTE_TYPE", "float32"), "epyc", "preconfigured"))
  }

  /** With none of the variables set, the defaults are 8 models, batches of 32, 64 workers and float32, optimisation off. */
  lemma DefaultConfig(env: Env)
    requires forall v :: v in ["USE_EPYC_OPTIMIZATION", "EPYC_NUM_MODELS", "EPYC_BATCH_SIZE", "EPYC_WORKERS", "EPYC_COMPUTE_TYPE"] ==> v !in env
    ensures ReadConfig(env) == Ok(Config(false, 8, 32, 64, "float32", "epyc", "preconfigured"))
  {
    assert "USE_EPYC_OPTIMIZATION" !in env && "EPYC_NUM_MODELS" !in env && "EPYC_BATCH_SIZE" !in env;
    assert "EPYC_WORKERS" !in env && "EPYC_COMPUTE_TYPE" !in env;
  }

  /** `int(str(n)) == n`. */
  lemma ReadNat(n: nat)
    ensures PyInt(NatToString(n)) == Some(n)
  {
    var s := NatToString(n);
    assert IsDigit(s[0]) && IsDigit(s[|s| - 1]);
    ParseNatToString(n);
  }

  /** The environment after `vars` are written in order, each keeping its value or becoming "8" when unset. */
  function Written(env: Env, vars: seq<string>): Env
    decreases |vars|
  {
    if vars == [] then env
    else
      var v := vars[|vars| - 1];
      Written(env, vars[..|vars| - 1])[v := GetEnv(env, v, "8")]
  }

  /** Writing the variables adds exactly them, sets each to its value or "8", and leaves the rest alone. */
  lemma {:induction false} WrittenSpec(env: Env, vars: seq<string>)
    ensures Written(env, vars).Keys == env.Keys + set v | v in vars
    ensures forall v :: v in vars ==> Written(env, vars)[v] == GetEnv(env, v, "8")
    ensures forall v :: v in env && v !in vars ==> Written(env, vars)[v] == env[v]
    decreases |vars|
  {
    if vars != [] {
      var front := vars[..|vars| - 1];
      WrittenSpec(env, front);
      assert vars == front + [vars[|vars| - 1]];
      assert forall v :: v in vars <==> v in front || v == vars[|vars| - 1];
    }
  }

  /** The environment after the thread-count variables are written. */
  function WithThreadDefaults(env: Env): Env
  {
    Written(env, ThreadVars)
  }

  /** The module globals `_epyc_preconfigured` and `_epyc_config`, and the process environment. */
  class EpycGlobals {
    var preconfigured: bool
    var config: Option<Config>
    var environ: Env

    /** Stored configuration exists exactly once initialisation has finished. */
    ghost predicate Valid()
      reads this
    {
      preconfigured <==> config.Some?
    }

    constructor(environ: Env)
      ensures Valid() && !preconfigured && this.environ == environ
    {
      preconfigured := false;
      config := None;
      this.environ := environ;
    }

    /**
     * `initialize_epyc_once`: does nothing after the first successful run;
     * otherwise stores the configuration read from the environment, writes
     * the thread-count variables only when the optimisation is on, and marks
     * itself done.  A refused integer raises before anything is stored.
     */
    method InitializeOnce() returns (r: Result<(), PyError>)
      requires Valid()
      modifies this
      ensures Valid()
      ensures old(preconfigured) ==> r.Ok? && unchanged(this)
      ensures !old(preconfigured) && ReadConfig(old(environ)).Err? ==>
                r == Err(ReadConfig(old(environ)).error) && unchanged(this)
      ensures !old(preconfigured) && ReadConfig(old(environ)).Ok? ==>
                r.Ok? && preconfigured && config == Some(ReadConfig(old(environ)).value) &&
                environ == (if UseEpyc(old(environ)) then WithThreadDefaults(old(environ)) else old(environ))
    {
      if preconfigured {
        return Ok(());
      }
      var read := ReadConfig(environ);
      if read.Err? {
        return Err(read.error);
      }
      config := Some(read.value);
      if read.value.useEpycOptimization {
        var i := 0;
        var env := environ;
        while i < |ThreadVars|
          invariant 0 <= i <= |ThreadVars|
          invariant env == Written(environ, ThreadVars[..i])
        {
          assert ThreadVars[..i + 1][..i] == ThreadVars[..i];
          env := env[ThreadVars[i] := GetEnv(environ, ThreadVars[i], "8")];
          i := i + 1;
        }
        assert ThreadVars[..i] == ThreadVars;
        environ := env;
      }
      preconfigured := true;
      r := Ok(());
    }

    /**
     * `setup_epyc_environment` (and `EPYCConfig.get_optimal_config`, whose
     * body is the same): initialise on first use, then hand out the stored
     * configuration by value, so a caller changing its copy cannot change
     * what later callers receive.
     */
    method SetupEnvironment() returns (r: Result<Config, PyError>)
      requires Valid()
      modifies this
      ensures Valid()
      ensures old(preconfigured) ==> r == Ok(old(config).value) && unchanged(this)
      ensures !old(preconfigured) ==> (r.Ok? <==> ReadConfig(old(environ)).Ok?)
      ensures r.Ok? ==> preconfigured && config == Some(r.value)
      ensures r.Ok? && !old(preconfigured) ==> r.value == ReadConfig(old(environ)).value
      ensures r.Ok? && !old(preconfigured) ==>
                environ == (if UseEpyc(old(environ)) then WithThreadDefaults(old(environ)) else old(environ))
      ensures r.Err? ==> unchanged(this)
    {
      if !preconfigured {
        var init := InitializeOnce();
        if init.Err? {
          return Err(init.error);
        }
      }
      r := Ok(config.value);
    }
  }

  /** Two calls in a row hand out the same configuration, and the second reads nothing from the environment. */
  method SetupTwice(g: EpycGlobals) returns (first: Result<Config, PyError>, second: Result<Config, PyError>)
    requires g.Valid()
    modifies g
    ensures first.Ok? ==> second == first
    ensures first.Ok? ==> g.environ == (if old(g.preconfigured) then old(g.environ)
                                        else if UseEpyc(old(g.environ)) then WithThreadDefaults(old(g.environ))
                                        else old(g.environ))
  {
    first := g.SetupEnvironment();
    second := g.SetupEnvironment();
  }
}
