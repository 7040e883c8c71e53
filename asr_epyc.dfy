// The speech-recognition stage tuned for many-core CPUs: a first-in,
// first-out cache of loaded Whisper models with hit and miss counters, the
// manager that preloads its model instances from that cache, the batching
// of audio files over the model instances, and the dictionary of
// transcripts built from the batch results.

module AsrEpyc {
  import opened Common

  /** A loaded Whisper model, identified by what it was loaded for. */
  datatype WhisperModel = WhisperModel(name: string, device: string, computeType: string)

  /** `{model_name}_{device}_{compute_type}`. */
  function CacheKey(name: string, device: string, computeType: string): string
  {
    name + "_" + device + "_" + computeType
  }

  /**
   * Two requests share a cache entry only when they ask for the same model,
   * provided the model name and the device carry no '_' (with one,
   * "a_b"/"c" and "a"/"b_c" would share a key).
   */
  lemma CacheKeyInjective(n1: string, d1: string, c1: string, n2: string, d2: string, c2: string)
    requires '_' !in n1 && '_' !in d1 && '_' !in n2 && '_' !in d2
    requires CacheKey(n1, d1, c1) == CacheKey(n2, d2, c2)
    ensures n1 == n2 && d1 == d2 && c1 == c2
  {
    var k1, k2 := CacheKey(n1, d1, c1), CacheKey(n2, d2, c2);
    assert k1 == n1 + ['_'] + (d1 + ['_'] + c1);
    assert k2 == n2 + ['_'] + (d2 + ['_'] + c2);
    SplitConcat(n1, d1 + ['_'] + c1, '_');
    SplitConcat(n2, d2 + ['_'] + c2, '_');
    SplitConcat(d1, c1, '_');
    SplitConcat(d2, c2, '_');
    assert Split(k1, '_')[0] == n1 && Split(k1, '_')[1] == d1;
    assert Split(k2, '_')[0] == n2 && Split(k2, '_')[1] == d2;
    assert c1 == k1[|n1| + |d1| + 2..];
    assert c2 == k2[|n2| + |d2| + 2..];
  }

  /** Every cached model sits under the key of what it was loaded for. */
  ghost predicate KeysMatch(cache: map<string, WhisperModel>)
  {
    forall k :: k in cache ==> CacheKey(cache[k].name, cache[k].device, cache[k].computeType) == k
  }

  /** A hit hands back exactly the model that was asked for (names and devices without '_'). */
  lemma CachedModelMatches(cache: map<string, WhisperModel>, name: string, device: string, computeType: string)
    requires KeysMatch(cache) && CacheKey(name, device, computeType) in cache
    requires '_' !in name && '_' !in device
    requires '_' !in cache[CacheKey(name, device, computeType)].name && '_' !in cache[CacheKey(name, device, computeType)].device
    ensures cache[CacheKey(name, device, computeType)] == WhisperModel(name, device, computeType)
  {
    var m := cache[CacheKey(name, device, computeType)];
    CacheKeyInjective(m.name, m.device, m.computeType, name, device, computeType);
  }

  /** Evicting the earliest inserted entry keeps the order and the keys in step. */
  lemma EvictKeeps(order: seq<string>, cache: map<string, WhisperModel>)
    requires KeyOrder(order, cache) && KeysMatch(cache) && |order| > 0
    ensures KeyOrder(order[1..], cache - {order[0]}) && KeysMatch(cache - {order[0]})
  {
    assert forall i :: 1 <= i < |order| ==> order[i] != order[0];
    assert forall k :: k in cache - {order[0]} ==> k in order[1..];
  }

  /** Inserting a model that is not cached yet, under its own key, keeps the order and the keys in step. */
  lemma InsertKeeps(order: seq<string>, cache: map<string, WhisperModel>, model: WhisperModel)
    requires KeyOrder(order, cache) && KeysMatch(cache)
    requires CacheKey(model.name, model.device, model.computeType) !in cache
    ensures var key := CacheKey(model.name, model.device, model.computeType);
            KeyOrder(order + [key], cache[key := model]) && KeysMatch(cache[key := model])
  {
  }

  /** `ModelCache`: loaded models by key, in insertion order, with hit and miss counters. */
  class ModelCache {
    /** The keys in insertion order (the iteration order of the dictionary). */
    var order: seq<string>
    var cache: map<string, WhisperModel>
    const maxCacheSize: int
    var hits: nat
    var misses: nat

    /**
     * The order lists each cached key once, every model is under its own
     * key, and there are never more than `maxCacheSize` models (none at
     * all when that bound is not positive).
     */
    ghost predicate Valid()
      reads this
    {
      KeyOrder(order, cache) && KeysMatch(cache) && (|order| == 0 || |order| <= maxCacheSize)
    }

    constructor(maxCacheSize: int)
      ensures Valid()
      ensures this.maxCacheSize == maxCacheSize
      ensures order == [] && cache == map[] && hits == 0 && misses == 0
    {
      this.maxCacheSize := maxCacheSize;
      order := [];
      cache := map[];
      hits := 0;
      misses := 0;
    }

    /**
     * `get_model`.  A hit counts and returns the cached model and changes
     * nothing else (in particular not the eviction order).  A miss on a full
     * cache first evicts the earliest inserted entry (on an empty cache whose
     * bound is not positive there is nothing to take and StopIteration is
     * raised before anything changes), then counts the miss and loads the
     * model; a model that fails to load leaves the eviction and the count
     * in place and inserts nothing.
     */
    method GetModel(name: string, device: string, computeType: string, loadFails: bool)
      returns (r: Result<WhisperModel, PyError>)
      requires Valid()
      modifies this
      ensures Valid()
      ensures var key := CacheKey(name, device, computeType);
              key in old(cache) ==>
                r == Ok(old(cache)[key]) && cache == old(cache) && order == old(order) &&
                hits == old(hits) + 1 && misses == old(misses)
      ensures var key := CacheKey(name, device, computeType);
              key !in old(cache) && |old(order)| == 0 && maxCacheSize <= 0 ==>
                r.Err? && r.error.StopIteration? &&
                cache == old(cache) && order == old(order) && hits == old(hits) && misses == old(misses)
      ensures var key := CacheKey(name, device, computeType);
              key !in old(cache) && (|old(order)| > 0 || maxCacheSize > 0) ==>
                var full := |old(order)| >= maxCacheSize;
                var kept := if full then old(order)[1..] else old(order);
                var left := if full then old(cache) - {old(order)[0]} else old(cache);
                hits == old(hits) && misses == old(misses) + 1 &&
                (loadFails ==> r.Err? && order == kept && cache == left) &&
                (!loadFails ==> r == Ok(WhisperModel(name, device, computeType)) &&
                                order == kept + [key] && cache == left[key := WhisperModel(name, device, computeType)])
    {
      var key := CacheKey(name, device, computeType);
      KeyOrderLength(order, cache);
      if key in cache {
        hits := hits + 1;
        return Ok(cache[key]);
      }
      if |cache| >= maxCacheSize {
        if |order| == 0 {
          return Err(StopIteration("empty cache"));
        }
        var oldest := order[0];
        EvictKeeps(order, cache);
        cache := cache - {oldest};
        order := order[1..];
      }
      misses := misses + 1;
      if loadFails {
        return Err(RuntimeError("model load failed"));
      }
      var model := WhisperModel(name, device, computeType);
      InsertKeeps(order, cache, model);
      cache := cache[key := model];
      order := order + [key];
      r := Ok(model);
    }

    /** `get_cache_stats`: hits, misses, the hit rate and the number of cached models. */
    function Stats(): (s: (nat, nat, real, nat))
      reads this
      ensures s.0 == hits && s.1 == misses && s.3 == |cache|
      ensures 0.0 <= s.2 <= 1.0
      ensures hits + misses == 0 ==> s.2 == 0.0
      ensures hits + misses > 0 ==> s.2 * (hits + misses) as real == hits as real
    {
      (hits, misses, Rate(hits, hits + misses), |cache|)
    }
  }

  /**
   * The preloading loop of `EPYCWhisperManager.__init__`: `numModels`
   * requests of one key on the fresh cache.  The first request misses and
   * every later one hits, so all instances are the same model; a cache
   * bound that is not positive raises at the first request.
   */
  method Preload(cache: ModelCache, numModels: int, computeType: string, loadFails: bool)
    returns (r: Result<seq<WhisperModel>, PyError>)
    requires cache.Valid() && cache.cache == map[] && cache.order == [] && cache.hits == 0 && cache.misses == 0
    modifies cache
    ensures cache.Valid()
    ensures r.Ok? <==> numModels <= 0 || (cache.maxCacheSize > 0 && !loadFails)
    ensures r.Ok? ==> |r.value| == (if numModels > 0 then numModels else 0)
    ensures r.Ok? ==> forall i :: 0 <= i < |r.value| ==> r.value[i] == WhisperModel("large-v3", "cpu", computeType)
    ensures r.Ok? ==> cache.misses == (if numModels > 0 then 1 else 0) && cache.hits + cache.misses == |r.value|
  {
    var models: seq<WhisperModel> := [];
    var key := CacheKey("large-v3", "cpu", computeType);
    var i := 0;
    while i < numModels
      invariant cache.Valid()
      invariant 0 <= i && (numModels > 0 ==> i <= numModels) && (numModels <= 0 ==> i == 0) && |models| == i
      invariant forall j :: 0 <= j < i ==> models[j] == WhisperModel("large-v3", "cpu", computeType)
      invariant i > 0 ==> (cache.cache == map[key := WhisperModel("large-v3", "cpu", computeType)] &&
                           cache.misses == 1 && cache.hits == i - 1 && cache.maxCacheSize > 0 && !loadFails)
      invariant i == 0 ==> cache.cache == map[] && cache.order == [] && cache.hits == 0 && cache.misses == 0
    {
      var m := cache.GetModel("large-v3", "cpu", computeType, loadFails);
      if m.Err? {
        return Err(m.error);
      }
      models := models + [m.value];
      i := i + 1;
    }
    r := Ok(models);
  }

  // ----------------------------------------------------------- batching

  /** An audio file to transcribe and the segment index it belongs to. */
  datatype AudioFile = AudioFile(path: string, index: string)

  /** A result tuple `(audio_file, seg_index, text)`. */
  datatype Transcription = Transcription(path: string, index: string, text: string)

  /**
   * `_process_single_file`: a missing file and a failing transcription both
   * give the empty text; `transcribe(m, path)` is the output of model
   * instance `m`, or None when it raises.
   */
  function TranscribeFile(file: AudioFile, model: nat, existing: set<string>,
                          transcribe: (nat, string) -> Option<string>): (t: Transcription)
    ensures t.path == file.path && t.index == file.index
    ensures t.text == "" || (file.path in existing && transcribe(model, file.path) == Some(t.text))
    ensures file.path in existing && transcribe(model, file.path).Some? ==> t.text == transcribe(model, file.path).value
  {
    if file.path in existing && transcribe(model, file.path).Some? then
      Transcription(file.path, file.index, transcribe(model, file.path).value)
    else Transcription(file.path, file.index, "")
  }

  /** The results of one batch on model `model`; a batch whose worker fails yields the empty text for each of its files. */
  function BatchResults(model: nat, batch: seq<AudioFile>, failed: bool, existing: set<string>,
                        transcribe: (nat, string) -> Option<string>): (rs: seq<Transcription>)
  {
    seq(|batch|, j requires 0 <= j < |batch| =>
      if failed then Transcription(batch[j].path, batch[j].index, "") else TranscribeFile(batch[j], model, existing, transcribe))
  }

  /** The batch plan: the consecutive slices of `batchSize` files, batch k on model k mod numModels. */
  function Plan(files: seq<AudioFile>, batchSize: nat, numModels: nat): (plan: seq<(nat, seq<AudioFile>)>)
    requires batchSize > 0 && numModels > 0
    ensures |plan| == |Chunks(files, batchSize)|
    ensures forall k :: 0 <= k < |plan| ==> plan[k].0 < numModels
  {
    var chunks := Chunks(files, batchSize);
    seq(|chunks|, k requires 0 <= k < |chunks| => (k % numModels, chunks[k]))
  }

  /** The files of the planned batches, in batch order. */
  function Batches(plan: seq<(nat, seq<AudioFile>)>): seq<seq<AudioFile>>
  {
    seq(|plan|, k requires 0 <= k < |plan| => plan[k].1)
  }

  /** The results of the first `n` batches of a plan, in batch order. */
  ghost function Collected(plan: seq<(nat, seq<AudioFile>)>, n: nat, batchFails: set<nat>, existing: set<string>,
                           transcribe: (nat, string) -> Option<string>): seq<Transcription>
    requires n <= |plan|
  {
    if n == 0 then []
    else Collected(plan, n - 1, batchFails, existing, transcribe) +
         BatchResults(plan[n - 1].0, plan[n - 1].1, n - 1 in batchFails, existing, transcribe)
  }

  /** The file and index each result answers. */
  function Submitted(ts: seq<Transcription>): seq<AudioFile>
  {
    seq(|ts|, j requires 0 <= j < |ts| => AudioFile(ts[j].path, ts[j].index))
  }

  /** The results of a prefix of the plan answer exactly the files of those batches, in order. */
  lemma {:induction false} CollectedSubmitted(plan: seq<(nat, seq<AudioFile>)>, n: nat, batchFails: set<nat>,
                                              existing: set<string>, transcribe: (nat, string) -> Option<string>)
    requires n <= |plan|
    ensures Submitted(Collected(plan, n, batchFails, existing, transcribe)) == Flatten(Batches(plan[..n]))
  {
    if n > 0 {
      CollectedSubmitted(plan, n - 1, batchFails, existing, transcribe);
      var prev := Collected(plan, n - 1, batchFails, existing, transcribe);
      var last := BatchResults(plan[n - 1].0, plan[n - 1].1, n - 1 in batchFails, existing, transcribe);
      assert Submitted(prev + last) == Submitted(prev) + plan[n - 1].1;
      assert Batches(plan[..n]) == Batches(plan[..n - 1]) + [plan[n - 1].1];
      FlattenAppend(Batches(plan[..n - 1]), plan[n - 1].1);
    }
  }

  /** Every text in the results is empty or is what some model instance of the plan produced for that file. */
  lemma {:induction false} CollectedTexts(plan: seq<(nat, seq<AudioFile>)>, n: nat, numModels: nat, batchFails: set<nat>,
                                          existing: set<string>, transcribe: (nat, string) -> Option<string>)
    requires n <= |plan| && forall k :: 0 <= k < |plan| ==> plan[k].0 < numModels
    ensures forall t :: t in Collected(plan, n, batchFails, existing, transcribe) ==>
              t.text == "" || exists m :: 0 <= m < numModels && transcribe(m, t.path) == Some(t.text)
  {
    if n > 0 {
      CollectedTexts(plan, n - 1, numModels, batchFails, existing, transcribe);
      var last := BatchResults(plan[n - 1].0, plan[n - 1].1, n - 1 in batchFails, existing, transcribe);
      forall t | t in last
        ensures t.text == "" || exists m :: 0 <= m < numModels && transcribe(m, t.path) == Some(t.text)
      {
        var j :| 0 <= j < |last| && last[j] == t;
        if t.text != "" {
          assert transcribe(plan[n - 1].0, t.path) == Some(t.text);
        }
      }
    }
  }

  /** The results of the whole plan answer every input file exactly once, in input order. */
  lemma PlanCoversFiles(files: seq<AudioFile>, batchSize: nat, numModels: nat, batchFails: set<nat>,
                        existing: set<string>, transcribe: (nat, string) -> Option<string>)
    requires batchSize > 0 && numModels > 0
    ensures var plan := Plan(files, batchSize, numModels);
            Submitted(Collected(plan, |plan|, batchFails, existing, transcribe)) == files
  {
    var plan := Plan(files, batchSize, numModels);
    CollectedSubmitted(plan, |plan|, batchFails, existing, transcribe);
    assert plan[..|plan|] == plan;
    assert Batches(plan) == Chunks(files, batchSize);
    FlattenChunks(files, batchSize);
  }

  /** `(k * size) // size == k`. */
  lemma MulDiv(k: nat, size: nat)
    requires size > 0
    ensures (k * size) / size == k
  {
    var q, r := (k * size) / size, (k * size) % size;
    assert (q - k) * size == -r;
    assert (k - q) * size == r;
    if q > k {
      MulAtLeast(q - k, size);
    } else if q < k {
      MulAtLeast(k - q, size);
    }
  }

  lemma MulAtLeast(a: nat, b: nat)
    requires a >= 1
    ensures a * b >= b
  {
    assert a * b == (a - 1) * b + b;
  }

  /**
   * `parallel_transcribe`: no files give no results; otherwise the files
   * are cut into the planned batches and each batch's results are
   * collected.  A zero batch size is refused by `range`, no model
   * instances make the model index a division by zero, and a batch size
   * below zero or no workers leave the process pool without workers.  A
   * negative number of models is accepted: `range` preloads no instance,
   * the model index `(i // batch_size) % num_models` is computed without
   * error, and every lookup `models[model_idx % 0]` then raises a
   * ZeroDivisionError that `_process_single_file` catches, so every file
   * is answered with the empty text whatever its batch's model index.
   */
  method ParallelTranscribe(files: seq<AudioFile>, batchSize: int, numModels: int, workers: int,
                            existing: set<string>, transcribe: (nat, string) -> Option<string>, batchFails: set<nat>)
    returns (r: Result<seq<Transcription>, PyError>)
    ensures files == [] ==> r == Ok([])
    ensures files != [] ==> (r.Ok? <==> batchSize > 0 && numModels != 0 && workers > 0)
    ensures files != [] && batchSize > 0 && numModels == 0 ==> r.Err? && r.error.ZeroDivisionError?
    ensures r.Ok? && files != [] && numModels > 0 ==>
              batchSize > 0 &&
              r.value == Collected(Plan(files, batchSize, numModels), |Plan(files, batchSize, numModels)|,
                                   batchFails, existing, transcribe)
    ensures r.Ok? ==> Submitted(r.value) == files
    ensures r.Ok? ==> forall t :: t in r.value ==>
              t.text == "" || exists m :: 0 <= m < numModels && transcribe(m, t.path) == Some(t.text)
  {
    if |files| == 0 {
      return Ok([]);
    }
    if batchSize == 0 {
      return Err(ValueError("range() arg 3 must not be zero"));
    }
    if batchSize < 0 {
      return Err(ValueError("max_workers must be greater than 0"));
    }
    if numModels == 0 {
      return Err(ZeroDivisionError("integer modulo by zero"));
    }
    // With no instances the model index is never used: a stand-in of one
    // instance that always raises gives the same results.
    var instances: nat := if numModels > 0 then numModels else 1;
    var run := if numModels > 0 then transcribe else (m: nat, path: string) => None;
    var batches := CutBatches(files, batchSize, instances);
    if workers <= 0 {
      return Err(ValueError("max_workers must be greater than 0"));
    }
    var results: seq<Transcription> := [];
    var n := 0;
    while n < |batches|
      invariant 0 <= n <= |batches|
      invariant results == Collected(batches, n, batchFails, existing, run)
    {
      var batchResults;
      if n in batchFails {
        batchResults := FailedBatch(batches[n].1);
      } else {
        batchResults := ProcessBatch(batches[n].0, batches[n].1, existing, run);
      }
      results := results + batchResults;
      n := n + 1;
    }
    PlanCoversFiles(files, batchSize, instances, batchFails, existing, run);
    CollectedTexts(batches, |batches|, instances, batchFails, existing, run);
    r := Ok(results);
  }

  /** The batching loop of `parallel_transcribe`: slices `files[i:i+batchSize]` on model `(i // batchSize) % numModels`. */
  method CutBatches(files: seq<AudioFile>, batchSize: nat, numModels: nat) returns (batches: seq<(nat, seq<AudioFile>)>)
    requires batchSize > 0 && numModels > 0
    ensures batches == Plan(files, batchSize, numModels)
  {
    batches := [];
    var i := 0;
    while i < |files|
      invariant i == |batches| * batchSize
      invariant forall k :: 0 <= k < |batches| ==> batches[k].0 == k % numModels
      invariant i < |files| ==> Batches(batches) + Chunks(files[i..], batchSize) == Chunks(files, batchSize)
      invariant i >= |files| ==> Batches(batches) == Chunks(files, batchSize)
      decreases |files| - i
    {
      var end := if i + batchSize < |files| then i + batchSize else |files|;
      var model: nat := (i / batchSize) % numModels;
      CutStep(files, batches, i, batchSize, numModels);
      batches := batches + [(model, files[i..end])];
      i := i + batchSize;
    }
    PlanOfBatches(files, batches, batchSize, numModels);
  }

  /** One turn of the batching loop keeps its invariants. */
  lemma CutStep(files: seq<AudioFile>, batches: seq<(nat, seq<AudioFile>)>, i: nat, batchSize: nat, numModels: nat)
    requires batchSize > 0 && numModels > 0 && i < |files| && i == |batches| * batchSize
    requires forall k :: 0 <= k < |batches| ==> batches[k].0 == k % numModels
    requires Batches(batches) + Chunks(files[i..], batchSize) == Chunks(files, batchSize)
    ensures var end := if i + batchSize < |files| then i + batchSize else |files|;
            var next := batches + [((i / batchSize) % numModels, files[i..end])];
            i + batchSize == |next| * batchSize &&
            (forall k :: 0 <= k < |next| ==> next[k].0 == k % numModels) &&
            (i + batchSize < |files| ==> Batches(next) + Chunks(files[i + batchSize..], batchSize) == Chunks(files, batchSize)) &&
            (i + batchSize >= |files| ==> Batches(next) == Chunks(files, batchSize))
  {
    var end := if i + batchSize < |files| then i + batchSize else |files|;
    var slice := files[i..end];
    var next := batches + [((i / batchSize) % numModels, slice)];
    MulDiv(|batches|, batchSize);
    MulSucc(|batches|, batchSize);
    assert next[|batches|].0 == |batches| % numModels;
    BatchesAppend(batches, ((i / batchSize) % numModels, slice));
    ChunksStep(files, i, batchSize);
    var before, rest := Batches(batches), Chunks(files[i..], batchSize);
    if end < |files| {
      assert rest == [slice] + Chunks(files[end..], batchSize);
      assert before + [slice] + Chunks(files[end..], batchSize) == before + rest;
    } else {
      assert rest == [slice];
    }
  }

  /** The files of one more batch follow those of the batches before it. */
  lemma BatchesAppend(plan: seq<(nat, seq<AudioFile>)>, batch: (nat, seq<AudioFile>))
    ensures Batches(plan + [batch]) == Batches(plan) + [batch.1]
  {
  }

  /** Batches numbered round-robin whose files are the chunks make up the plan. */
  lemma PlanOfBatches(files: seq<AudioFile>, batches: seq<(nat, seq<AudioFile>)>, batchSize: nat, numModels: nat)
    requires batchSize > 0 && numModels > 0
    requires forall k :: 0 <= k < |batches| ==> batches[k].0 == k % numModels
    requires Batches(batches) == Chunks(files, batchSize)
    ensures batches == Plan(files, batchSize, numModels)
  {
    var plan := Plan(files, batchSize, numModels);
    assert |Batches(batches)| == |batches|;
    forall k | 0 <= k < |batches|
      ensures batches[k] == plan[k]
    {
      assert batches[k].1 == Batches(batches)[k];
    }
  }

  /** The chunks from position `i` start with the slice `files[i:i+size]`. */
  lemma ChunksStep(files: seq<AudioFile>, i: nat, size: nat)
    requires size > 0 && i < |files|
    ensures var end := if i + size < |files| then i + size else |files|;
            Chunks(files[i..], size) == [files[i..end]] + (if end < |files| then Chunks(files[end..], size) else [])
  {
    var rest := files[i..];
    if i + size < |files| {
      assert rest[..size] == files[i..i + size];
      assert rest[size..] == files[i + size..];
    } else {
      assert rest == files[i..|files|];
    }
  }

  /** `_process_batch_threaded`: one result per file of the batch. */
  method ProcessBatch(model: nat, batch: seq<AudioFile>, existing: set<string>, transcribe: (nat, string) -> Option<string>)
    returns (results: seq<Transcription>)
    ensures results == BatchResults(model, batch, false, existing, transcribe)
  {
    results := [];
    for j := 0 to |batch|
      invariant results == BatchResults(model, batch[..j], false, existing, transcribe)
    {
      results := results + [TranscribeFile(batch[j], model, existing, transcribe)];
    }
    assert batch[..|batch|] == batch;
  }

  /** A batch whose worker failed: the empty text for each of its files. */
  method FailedBatch(batch: seq<AudioFile>) returns (results: seq<Transcription>)
    ensures forall model, existing, transcribe :: results == BatchResults(model, batch, true, existing, transcribe)
  {
    results := [];
    for j := 0 to |batch|
      invariant |results| == j
      invariant forall k :: 0 <= k < j ==> results[k] == Transcription(batch[k].path, batch[k].index, "")
    {
      results := results + [Transcription(batch[j].path, batch[j].index, "")];
    }
  }

  // --------------------------------------------------------- transcripts

  /** `{working_dir}/_cache/{video_name}/{segment_name}.{format}`. */
  function AudioPath(workingDir: string, videoName: string, segmentName: string, format: string): string
  {
    PathJoin(PathJoin(PathJoin(workingDir, "_cache"), videoName), segmentName + "." + format)
  }

  /** The segment's audio file was written. */
  predicate HasAudio(index: string, indexToName: map<string, string>, workingDir: string, videoName: string,
                     format: string, existing: set<string>)
    requires index in indexToName
  {
    AudioPath(workingDir, videoName, indexToName[index], format) in existing
  }

  /** The audio files of the first `n` segments of `order` that exist, in segment order. */
  ghost function Chosen(workingDir: string, videoName: string, order: seq<string>, n: nat,
                        indexToName: map<string, string>, format: string, existing: set<string>): seq<AudioFile>
    requires n <= |order| && forall j :: 0 <= j < |order| ==> order[j] in indexToName
  {
    if n == 0 then []
    else
      var path := AudioPath(workingDir, videoName, indexToName[order[n - 1]], format);
      Chosen(workingDir, videoName, order, n - 1, indexToName, format, existing) +
      (if path in existing then [AudioFile(path, order[n - 1])] else [])
  }

  /** The segment indices of a list of audio files, in order. */
  function Indices(files: seq<AudioFile>): seq<string>
  {
    seq(|files|, j requires 0 <= j < |files| => files[j].index)
  }

  /** Each file is the existing audio file of its segment. */
  predicate ExistingAudio(files: seq<AudioFile>, workingDir: string, videoName: string,
                          indexToName: map<string, string>, format: string, existing: set<string>)
  {
    forall j :: 0 <= j < |files| ==> AudioOf(files[j], workingDir, videoName, indexToName, format, existing)
  }

  /** The file is the existing audio file of its segment. */
  predicate AudioOf(file: AudioFile, workingDir: string, videoName: string,
                    indexToName: map<string, string>, format: string, existing: set<string>)
  {
    file.index in indexToName && file.path in existing &&
    file.path == AudioPath(workingDir, videoName, indexToName[file.index], format)
  }

  /** The indices of one more file are the indices before it and its own. */
  lemma IndicesAppend(files: seq<AudioFile>, f: AudioFile)
    ensures Indices(files + [f]) == Indices(files) + [f.index]
  {
  }

  /** The chosen files are existing audio files of their segments. */
  lemma {:induction false} ChosenExisting(workingDir: string, videoName: string, order: seq<string>, n: nat,
                                          indexToName: map<string, string>, format: string, existing: set<string>)
    requires n <= |order| && forall j :: 0 <= j < |order| ==> order[j] in indexToName
    ensures ExistingAudio(Chosen(workingDir, videoName, order, n, indexToName, format, existing),
                          workingDir, videoName, indexToName, format, existing)
  {
    if n > 0 {
      ChosenExisting(workingDir, videoName, order, n - 1, indexToName, format, existing);
      var before := Chosen(workingDir, videoName, order, n - 1, indexToName, format, existing);
      var x := order[n - 1];
      var path := AudioPath(workingDir, videoName, indexToName[x], format);
      if path in existing {
        ExistingAppend(before, AudioFile(path, x), workingDir, videoName, indexToName, format, existing);
      }
    }
  }

  /** One more existing audio file keeps a list of existing audio files. */
  lemma ExistingAppend(files: seq<AudioFile>, file: AudioFile, workingDir: string, videoName: string,
                       indexToName: map<string, string>, format: string, existing: set<string>)
    requires ExistingAudio(files, workingDir, videoName, indexToName, format, existing)
    requires AudioOf(file, workingDir, videoName, indexToName, format, existing)
    ensures ExistingAudio(files + [file], workingDir, videoName, indexToName, format, existing)
  {
    var all := files + [file];
    forall j | 0 <= j < |all|
      ensures AudioOf(all[j], workingDir, videoName, indexToName, format, existing)
    {
      if j < |files| {
        assert all[j] == files[j];
      }
    }
  }

  /** The indices of the chosen files are the segments among the first `n` that have audio. */
  lemma {:induction false} ChosenIndices(workingDir: string, videoName: string, order: seq<string>, n: nat,
                                         indexToName: map<string, string>, format: string, existing: set<string>)
    requires n <= |order| && forall j :: 0 <= j < |order| ==> order[j] in indexToName
    ensures forall k :: k in Indices(Chosen(workingDir, videoName, order, n, indexToName, format, existing)) <==>
              k in order[..n] && k in Audible(indexToName, workingDir, videoName, format, existing)
  {
    if n > 0 {
      ChosenIndices(workingDir, videoName, order, n - 1, indexToName, format, existing);
      var before := Chosen(workingDir, videoName, order, n - 1, indexToName, format, existing);
      var x := order[n - 1];
      var path := AudioPath(workingDir, videoName, indexToName[x], format);
      var keep := path in existing;
      var files := Chosen(workingDir, videoName, order, n, indexToName, format, existing);
      assert order[..n] == order[..n - 1] + [x];
      if keep {
        assert files == before + [AudioFile(path, x)];
        IndicesAppend(before, AudioFile(path, x));
      } else {
        assert files == before;
      }
      assert Indices(files) == Indices(before) + (if keep then [x] else []);
      KeepIfAudible(Indices(before), Indices(files), order[..n - 1], x, keep,
                    Audible(indexToName, workingDir, videoName, format, existing));
    }
  }

  /** The segments whose audio file exists. */
  ghost function Audible(indexToName: map<string, string>, workingDir: string, videoName: string,
                         format: string, existing: set<string>): set<string>
  {
    set k | k in indexToName && HasAudio(k, indexToName, workingDir, videoName, format, existing)
  }

  /** Looking at one more index keeps "the kept indices are the audible ones seen so far". */
  lemma KeepIfAudible(before: seq<string>, after: seq<string>, seen: seq<string>, x: string, keep: bool, audible: set<string>)
    requires forall k :: k in before <==> k in seen && k in audible
    requires keep == (x in audible)
    requires after == before + (if keep then [x] else [])
    ensures forall k :: k in after <==> k in seen + [x] && k in audible
  {
  }

  /** The selection loop: the existing audio files of the segments, in segment order. */
  method ChooseAudio(videoName: string, workingDir: string, order: seq<string>, indexToName: map<string, string>,
                     format: string, existing: set<string>)
    returns (files: seq<AudioFile>)
    requires forall j :: 0 <= j < |order| ==> order[j] in indexToName
    ensures files == Chosen(workingDir, videoName, order, |order|, indexToName, format, existing)
  {
    files := [];
    for i := 0 to |order|
      invariant files == Chosen(workingDir, videoName, order, i, indexToName, format, existing)
    {
      var path := AudioPath(workingDir, videoName, indexToName[order[i]], format);
      if path in existing {
        files := files + [AudioFile(path, order[i])];
      }
    }
  }

  /** The audio files of the segments, in segment order, keeping only those that exist. */
  method CollectAudioFiles(videoName: string, workingDir: string, order: seq<string>, indexToName: map<string, string>,
                           format: string, existing: set<string>)
    returns (files: seq<AudioFile>)
    requires KeyOrder(order, indexToName)
    ensures ExistingAudio(files, workingDir, videoName, indexToName, format, existing)
    ensures forall k :: k in Indices(files) <==> k in indexToName && HasAudio(k, indexToName, workingDir, videoName, format, existing)
  {
    files := ChooseAudio(videoName, workingDir, order, indexToName, format, existing);
    ChosenExisting(workingDir, videoName, order, |order|, indexToName, format, existing);
    ChosenIndices(workingDir, videoName, order, |order|, indexToName, format, existing);
    assert order[..|order|] == order;
  }

  /** `{seg_index: text for _, seg_index, text in results}`. */
  method TranscriptsByIndex(rs: seq<Transcription>) returns (m: map<string, string>)
    ensures forall k :: k in m <==> k in Indices(Submitted(rs))
    ensures forall k :: k in m ==> exists j :: 0 <= j < |rs| && rs[j].index == k && rs[j].text == m[k]
  {
    m := map[];
    for j := 0 to |rs|
      invariant forall k :: k in m <==> k in Indices(Submitted(rs))[..j]
      invariant forall k :: k in m ==> exists i :: 0 <= i < j && rs[i].index == k && rs[i].text == m[k]
    {
      assert Indices(Submitted(rs))[..j + 1] == Indices(Submitted(rs))[..j] + [rs[j].index];
      m := m[rs[j].index := rs[j].text];
    }
    assert Indices(Submitted(rs))[..|rs|] == Indices(Submitted(rs));
  }

  /**
   * `speech_to_text_epyc_optimized`: only segments whose audio file exists
   * are submitted; with none there is nothing to do and the result is
   * empty; otherwise the transcripts are keyed by segment index, each the
   * empty text or what a model instance produced for that segment's audio.
   */
  method SpeechToText(videoName: string, workingDir: string, order: seq<string>, indexToName: map<string, string>,
                      format: string, existing: set<string>, batchSize: int, numModels: int, workers: int,
                      transcribe: (nat, string) -> Option<string>, batchFails: set<nat>)
    returns (r: Result<map<string, string>, PyError>)
    requires KeyOrder(order, indexToName)
    ensures r.Ok? ==> forall k :: k in r.value <==> k in indexToName && HasAudio(k, indexToName, workingDir, videoName, format, existing)
    ensures r.Err? ==> exists k :: k in indexToName && HasAudio(k, indexToName, workingDir, videoName, format, existing)
    ensures r.Ok? ==> forall k :: k in r.value ==>
              r.value[k] == "" ||
              exists m :: 0 <= m < numModels &&
                transcribe(m, AudioPath(workingDir, videoName, indexToName[k], format)) == Some(r.value[k])
    ensures r.Ok? && numModels < 0 ==> forall k :: k in r.value ==> r.value[k] == ""
  {
    var files := CollectAudioFiles(videoName, workingDir, order, indexToName, format, existing);
    if |files| == 0 {
      return Ok(map[]);
    }
    assert files[0].index in Indices(files);
    var results := ParallelTranscribe(files, batchSize, numModels, workers, existing, transcribe, batchFails);
    if results.Err? {
      return Err(results.error);
    }
    var rs := results.value;
    assert Submitted(rs) == files;
    var transcripts := TranscriptsByIndex(rs);
    forall k | k in transcripts
      ensures transcripts[k] == "" ||
              exists m :: 0 <= m < numModels &&
                transcribe(m, AudioPath(workingDir, videoName, indexToName[k], format)) == Some(transcripts[k])
    {
      var j :| 0 <= j < |rs| && rs[j].index == k && rs[j].text == transcripts[k];
      assert rs[j] in rs && Submitted(rs)[j] == files[j];
    }
    r := Ok(transcripts);
  }
}
