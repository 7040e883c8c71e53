// The intermediate-artifact store of one indexing session: a directory tree
// under the session path holding, per pipeline step, a result envelope, a
// configuration, statistics and an append-only log, plus a session-wide
// error log capped at the 100 most recent records.  The filesystem is a map
// from path (a sequence of components) to file content together with the set
// of existing directories.
module IntermediateStorage {
  import opened Common
  import opened JsonNormalize

  /** The ten pipeline steps, in processing order. */
  const Steps: seq<string> := [
    "01_video_upload", "02_video_splitting", "03_asr_transcription",
    "04_caption_generation", "05_data_merging", "06_feature_extraction",
    "07_text_chunking", "08_entity_extraction", "09_vector_embedding",
    "10_index_construction"]

  const AsrStep := "03_asr_transcription"
  const CaptionStep := "04_caption_generation"
  const FeatureStep := "06_feature_extraction"
  const VectorStep := "09_vector_embedding"

  /** The most recent error records `save_error_log` keeps. */
  const MaxErrors: nat := 100

  type Path = seq<string>

  /** A file's content; `NpyFile` is an array `np.save` wrote, held as the value it was given. */
  datatype FileData = JsonFile(doc: Json) | TextFile(text: string) | BinaryFile(bytes: seq<int>) | NpyFile(array: PyValue)

  /** What `_atomic_write` is handed: a Python value, or raw bytes. */
  datatype Content = Py(v: PyValue) | Raw(bytes: seq<int>)

  lemma StepsDistinct()
    ensures |Steps| == 10
    ensures forall i, j :: 0 <= i < j < |Steps| ==> Steps[i] != Steps[j]
  {
  }

  // ------------------------------------------------------------ session path

  function SessionDir(sessionId: string): string { "chat-" + sessionId }

  /** `[i for i, part in enumerate(parts) if part == name]`. */
  function MatchingIndices(parts: Path, name: string): (r: seq<nat>)
    ensures forall k :: 0 <= k < |r| ==> r[k] < |parts| && parts[r[k]] == name
    ensures forall i :: 0 <= i < |parts| && parts[i] == name ==> i in r
    ensures forall k, l :: 0 <= k < l < |r| ==> r[k] < r[l]
  {
    if |parts| == 0 then []
    else MatchingIndices(parts[..|parts| - 1], name) + (if parts[|parts| - 1] == name then [|parts| - 1] else [])
  }

  /**
   * `_setup_session_path`: reuse the base path when `chat-{id}` already
   * occurs in its text and as one of its components (cut after the last such
   * component), otherwise append `chat-{id}`.  `str(base)` is the components
   * joined by "/".
   */
  function SessionPath(base: Path, sessionId: string): Path
  {
    var dir := SessionDir(sessionId);
    if Contains(Join(base, "/"), dir) then
      var indices := MatchingIndices(base, dir);
      if |indices| > 1 then base[..indices[|indices| - 1] + 1]
      else if |indices| == 1 then base[..indices[0] + 1]
      else base + [dir]
    else base + [dir]
  }

  lemma {:induction false} ContainsInSuffix(a: string, b: string, sub: string)
    requires Contains(b, sub)
    ensures Contains(a + b, sub)
    decreases |a|
  {
    if |a| > 0 {
      assert (a + b)[1..] == a[1..] + b;
      ContainsInSuffix(a[1..], b, sub);
    } else {
      assert a + b == b;
    }
  }

  lemma ContainsInPrefix(a: string, b: string, sub: string)
    requires sub <= a
    ensures Contains(a + b, sub)
  {
    assert sub <= a + b;
  }

  /** A component of a path is a substring of the path's text. */
  lemma {:induction false} ComponentInText(parts: Path, i: nat)
    requires i < |parts|
    ensures Contains(Join(parts, "/"), parts[i])
  {
    if |parts| == 1 {
      ContainsSelf(parts[0]);
    } else if i == 0 {
      ContainsInPrefix(parts[0], "/" + Join(parts[1..], "/"), parts[0]);
      assert Join(parts, "/") == parts[0] + ("/" + Join(parts[1..], "/"));
    } else {
      ComponentInText(parts[1..], i - 1);
      ContainsInSuffix(parts[0] + "/", Join(parts[1..], "/"), parts[i]);
    }
  }

  /** A component that does not occur has no matching index. */
  lemma NoMatchingIndex(parts: Path, name: string)
    requires LastIndexOf(parts, name).None?
    ensures |MatchingIndices(parts, name)| == 0
  {
  }

  /** The last matching index is the last occurrence of the component. */
  lemma {:induction false} LastMatchingIndex(parts: Path, name: string, i: nat)
    requires LastIndexOf(parts, name) == Some(i)
    ensures var indices := MatchingIndices(parts, name);
            |indices| > 0 && indices[|indices| - 1] == i
  {
    var n := |parts|;
    var init := parts[..n - 1];
    if parts[n - 1] == name {
      assert i == n - 1;
    } else {
      assert LastIndexOf(init, name) == Some(i);
      LastMatchingIndex(init, name, i);
      assert MatchingIndices(parts, name) == MatchingIndices(init, name) + [];
    }
  }

  /**
   * The session path ends in `chat-{id}`: it is the base cut right after the
   * last component equal to `chat-{id}` when there is one, and the base with
   * `chat-{id}` appended otherwise (also when the id occurs only inside some
   * longer component).
   */
  lemma SessionPathSpec(base: Path, sessionId: string)
    ensures var dir := SessionDir(sessionId);
            var r := SessionPath(base, sessionId);
            |r| > 0 && r[|r| - 1] == dir &&
            r == (match LastIndexOf(base, dir)
                  case Some(i) => base[..i + 1]
                  case None => base + [dir])
  {
    var dir := SessionDir(sessionId);
    var found := LastIndexOf(base, dir);
    if found.Some? {
      SessionPathCuts(base, sessionId, found.value);
      assert base[..found.value + 1][found.value] == dir;
    } else {
      SessionPathAppends(base, sessionId);
    }
  }

  lemma SessionPathAppends(base: Path, sessionId: string)
    requires LastIndexOf(base, SessionDir(sessionId)).None?
    ensures SessionPath(base, sessionId) == base + [SessionDir(sessionId)]
  {
    NoMatchingIndex(base, SessionDir(sessionId));
  }

  lemma SessionPathCuts(base: Path, sessionId: string, i: nat)
    requires LastIndexOf(base, SessionDir(sessionId)) == Some(i)
    ensures SessionPath(base, sessionId) == base[..i + 1]
  {
    LastMatchingIndex(base, SessionDir(sessionId), i);
    ComponentInText(base, i);
  }

  /** The session path never repeats the session directory at its end. */
  lemma SessionPathIdempotent(base: Path, sessionId: string)
    ensures SessionPath(SessionPath(base, sessionId), sessionId) == SessionPath(base, sessionId)
  {
    var dir := SessionDir(sessionId);
    var r := SessionPath(base, sessionId);
    SessionPathSpec(base, sessionId);
    SessionPathSpec(r, sessionId);
    assert LastIndexOf(r, dir) == Some(|r| - 1);
    assert r[..|r|] == r;
  }

  // ---------------------------------------------------------- directory tree

  function StepDir(session: Path, step: string): Path { session + ["intermediates", step] }

  function SegmentDir(session: Path, step: string): Path
  {
    StepDir(session, step) + [if step == AsrStep then "transcripts_by_segment" else "captions_by_segment"]
  }

  /** Every directory `_create_directory_structure` makes (with `parents=True`). */
  function Structure(session: Path): set<Path>
  {
    (set k | 1 <= k <= |session| :: session[..k])
    + {session + ["intermediates"], session + ["_cache"], session + ["final_outputs"],
       session + ["final_outputs", "vector_db"], session + ["final_outputs", "graph_db"]}
    + (set s | s in Steps :: StepDir(session, s))
    + {SegmentDir(session, AsrStep), SegmentDir(session, CaptionStep)}
  }

  function Parent(p: Path): Path requires |p| > 0 { p[..|p| - 1] }

  /** `path.with_suffix(path.suffix + ".tmp")`: the name with ".tmp" appended. */
  function TempPath(p: Path): (t: Path)
    requires |p| > 0
    ensures |t| == |p| && t != p && Parent(t) == Parent(p)
  {
    assert |p[|p| - 1] + ".tmp"| != |p[|p| - 1]|;
    Parent(p) + [p[|p| - 1] + ".tmp"]
  }

  // ---------------------------------------------------------- atomic write

  /** How `_atomic_write` renders content: None is the ValueError for an unsupported type. */
  function Render(c: Content): Option<FileData>
  {
    match c
    case Raw(b) => Some(BinaryFile(b))
    case Py(v) =>
      if v.PDict? || v.PList? then Some(JsonFile(Encode(v)))
      else if v.PStr? then Some(TextFile(v.s))
      else None
  }

  /**
   * Outcome of one `_atomic_write` of `c` to `p`: `fails(p)` says whether
   * writing the temp file or renaming it raises.  Every path through it
   * leaves no temp file behind; only success changes the target.
   */
  function WriteOnce(files: map<Path, FileData>, dirs: set<Path>, p: Path, data: Option<FileData>, fails: Path -> bool)
    : (Result<(), PyError>, map<Path, FileData>)
    requires |p| > 0
  {
    var cleaned := files - {TempPath(p)};
    if data.None? then (Err(ValueError("unsupported content type")), cleaned)
    else if Parent(p) !in dirs then (Err(FileNotFoundError("no such directory")), cleaned)
    else if fails(p) then (Err(IOError("write or rename failed")), cleaned)
    else (Ok(()), cleaned[p := data.value])
  }

  /**
   * The target either holds the new content (success) or keeps exactly what
   * it held before (failure); no temp file survives; no other path changes.
   */
  lemma WriteOnceAtomic(files: map<Path, FileData>, dirs: set<Path>, p: Path, data: Option<FileData>, fails: Path -> bool)
    requires |p| > 0
    ensures var (r, after) := WriteOnce(files, dirs, p, data, fails);
            TempPath(p) !in after &&
            (r.Ok? <==> data.Some? && Parent(p) in dirs && !fails(p)) &&
            (r.Ok? ==> p in after && after[p] == data.value) &&
            (r.Err? ==> (p in after <==> p in files) && (p in files ==> after[p] == files[p])) &&
            (forall q :: q != p && q != TempPath(p) ==> (q in after <==> q in files) && (q in files ==> after[q] == files[q]))
  {
  }

  /** Writes performed in order, stopping at the first failure. */
  function WriteAll(files: map<Path, FileData>, dirs: set<Path>, writes: seq<(Path, Content)>, fails: Path -> bool)
    : (Result<(), PyError>, map<Path, FileData>)
    requires forall k :: 0 <= k < |writes| ==> |writes[k].0| > 0
  {
    if |writes| == 0 then (Ok(()), files)
    else
      var (r0, f0) := WriteAll(files, dirs, writes[..|writes| - 1], fails);
      if r0.Err? then (r0, f0)
      else WriteOnce(f0, dirs, writes[|writes| - 1].0, Render(writes[|writes| - 1].1), fails)
  }

  // ---------------------------------------------------------- envelopes

  function S(s: string): PyValue { PStr(s) }

  function Field(name: string, v: PyValue): (PyKey, PyValue) { (KStr(name), v) }

  /** Python truthiness of an optional metadata dict. */
  predicate Truthy(metadata: Option<seq<(PyKey, PyValue)>>) { metadata.Some? && |metadata.value| > 0 }

  /** `{step, status: "completed", timestamp, data}` plus metadata when it is truthy. */
  function ResultEnvelope(step: string, data: seq<(PyKey, PyValue)>, metadata: Option<seq<(PyKey, PyValue)>>, now: string): PyValue
  {
    PDict([Field("step", S(step)), Field("status", S("completed")), Field("timestamp", S(now)), Field("data", PDict(data))]
          + (if Truthy(metadata) then [Field("metadata", PDict(metadata.value))] else []))
  }

  /** `dict.get(key, default)`: the last entry with that key wins, as in a dict. */
  function DictGet(entries: seq<(PyKey, PyValue)>, key: PyKey, default: PyValue): PyValue
  {
    if |entries| == 0 then default
    else if entries[|entries| - 1].0 == key then entries[|entries| - 1].1
    else DictGet(entries[..|entries| - 1], key, default)
  }

  /** `key in data` on a dict's entries. */
  predicate DictHas(entries: seq<(PyKey, PyValue)>, key: PyKey)
  {
    exists k :: 0 <= k < |entries| && entries[k].0 == key
  }

  /**
   * The `np.save` calls of `_save_step_specific_files`, in order: the video
   * and then the audio embeddings of the feature step, the text embeddings
   * of the vector step, each only when its key is in the data.
   */
  function EmbeddingSaves(session: Path, step: string, data: seq<(PyKey, PyValue)>): (r: seq<(Path, PyValue)>)
    ensures |r| <= 2
    ensures forall k :: 0 <= k < |r| ==> |r[k].0| > 0 && Parent(r[k].0) == StepDir(session, step)
  {
    var one := (name: string) =>
      if DictHas(data, KStr(name)) then [(StepDir(session, step) + [name + ".npy"], DictGet(data, KStr(name), PNone))] else [];
    if step == FeatureStep then one("video_embeddings") + one("audio_embeddings")
    else if step == VectorStep then one("text_embeddings")
    else []
  }

  /**
   * One `np.save`: it writes the file in place, with no temporary file; a
   * missing directory or a failing write raises and leaves the files alone.
   */
  function NpySave(files: map<Path, FileData>, dirs: set<Path>, p: Path, v: PyValue, fails: Path -> bool)
    : (Result<(), PyError>, map<Path, FileData>)
    requires |p| > 0
  {
    if Parent(p) !in dirs then (Err(FileNotFoundError("no such directory")), files)
    else if fails(p) then (Err(IOError("write failed")), files)
    else (Ok(()), files[p := NpyFile(v)])
  }

  /** `np.save` calls in order, stopping at the first that raises. */
  function SaveAll(files: map<Path, FileData>, dirs: set<Path>, saves: seq<(Path, PyValue)>, fails: Path -> bool)
    : (Result<(), PyError>, map<Path, FileData>)
    requires forall k :: 0 <= k < |saves| ==> |saves[k].0| > 0
  {
    if |saves| == 0 then (Ok(()), files)
    else
      var (r0, f0) := SaveAll(files, dirs, saves[..|saves| - 1], fails);
      if r0.Err? then (r0, f0)
      else NpySave(f0, dirs, saves[|saves| - 1].0, saves[|saves| - 1].1, fails)
  }

  /**
   * The feature step stores the video embeddings, the audio embeddings or
   * both, each under its own file name, and every other step stores none.
   */
  lemma EmbeddingSavesFiles(session: Path, step: string, data: seq<(PyKey, PyValue)>)
    ensures step != FeatureStep && step != VectorStep ==> EmbeddingSaves(session, step, data) == []
    ensures step == VectorStep ==>
              (EmbeddingSaves(session, step, data) != [] <==> DictHas(data, KStr("text_embeddings")))
    ensures step == FeatureStep ==>
              |EmbeddingSaves(session, step, data)| ==
                (if DictHas(data, KStr("video_embeddings")) then 1 else 0) + (if DictHas(data, KStr("audio_embeddings")) then 1 else 0)
    ensures forall k :: 0 <= k < |EmbeddingSaves(session, step, data)| ==>
              var (p, v) := EmbeddingSaves(session, step, data)[k];
              exists name :: DictHas(data, KStr(name)) && p == StepDir(session, step) + [name + ".npy"] &&
                             v == DictGet(data, KStr(name), PNone)
  {
  }

  function SegmentFile(segDir: Path, segmentId: string): Path
  {
    segDir + ["segment_" + ZFill(segmentId, 3) + ".json"]
  }

  /** The per-segment artifact: `{segment_id, transcript|caption, timestamp}`. */
  function SegmentRecord(step: string, segmentId: string, value: PyValue, now: string): PyValue
  {
    PDict([Field("segment_id", S(segmentId)),
           Field(if step == AsrStep then "transcript" else "caption", value),
           Field("timestamp", S(now))])
  }

  /**
   * The per-segment writes of `_save_step_specific_files` for the ASR and
   * caption steps, one per key of data["transcripts"] / data["captions"].
   * A key that is not a string has no `zfill`: the writes stop there and the
   * flag reports the AttributeError.
   */
  function SegmentWrites(session: Path, step: string, segments: seq<(PyKey, PyValue)>, now: string)
    : (r: (seq<(Path, Content)>, bool))
    ensures |r.0| <= |segments|
    ensures forall k :: 0 <= k < |r.0| ==> |r.0[k].0| > 0
    ensures r.1 <==> forall k :: 0 <= k < |segments| ==> segments[k].0.KStr?
    ensures r.1 ==> |r.0| == |segments|
    ensures forall k :: 0 <= k < |r.0| ==>
              (segments[k].0.KStr? &&
               r.0[k] == (SegmentFile(SegmentDir(session, step), segments[k].0.s),
                          Py(SegmentRecord(step, segments[k].0.s, segments[k].1, now))))
  {
    if |segments| == 0 then ([], true)
    else if !segments[0].0.KStr? then ([], false)
    else
      var id := segments[0].0.s;
      var (rest, ok) := SegmentWrites(session, step, segments[1..], now);
      ([(SegmentFile(SegmentDir(session, step), id), Py(SegmentRecord(step, id, segments[0].1, now)))] + rest, ok)
  }

  /** The log entry `append_to_log` adds. */
  function LogEntry(now: string, level: string, message: string): Json
  {
    JObj(map["timestamp" := JStr(now), "level" := JStr(level), "message" := JStr(message)])
  }

  /**
   * Reading a JSON list back for read-modify-write: a missing or
   * undecodable file reads as []; a decodable document that is not a list
   * has no `append`, which raises AttributeError.
   */
  function ReadList(files: map<Path, FileData>, p: Path): Result<seq<Json>, PyError>
  {
    if p !in files then Ok([])
    else match files[p]
      case JsonFile(JArr(items)) => Ok(items)
      case JsonFile(_) => Err(AttributeError("append"))
      case _ => Ok([])
  }

  /** `errors.append(entry)` followed by `errors[-100:]` when over the cap. */
  function CapErrors(errors: seq<Json>, entry: Json): (r: seq<Json>)
    ensures |r| == if |errors| + 1 > MaxErrors then MaxErrors else |errors| + 1
    ensures r[|r| - 1] == entry
    ensures forall k :: 0 <= k < |r| - 1 ==> r[k] == errors[|errors| + 1 - |r| + k]
  {
    var all := errors + [entry];
    if |all| > MaxErrors then all[|all| - MaxErrors..] else all
  }

  /** Capping twice in a row keeps the same window: the log never exceeds 100 records. */
  lemma CapErrorsBounded(errors: seq<Json>, a: Json, b: Json)
    ensures |CapErrors(CapErrors(errors, a), b)| <= MaxErrors
    ensures CapErrors(CapErrors(errors, a), b)[|CapErrors(CapErrors(errors, a), b)| - 2] == a
  {
  }

  function ErrorRecord(sessionId: string, error: Json, now: string): Json
  {
    JObj(map["session_id" := JStr(sessionId), "error" := error, "timestamp" := JStr(now)])
  }

  /**
   * The status a loaded result document reports: "not_started" when there is
   * no readable document or it is JSON null (which loads as None), otherwise
   * `result.get("status", "unknown")`.
   */
  function StatusOf(files: map<Path, FileData>, p: Path): Result<Json, PyError>
  {
    if p !in files || !files[p].JsonFile? || files[p].doc.JNull? then Ok(JStr("not_started"))
    else if files[p].doc.JObj? then Ok(GetField(files[p].doc, "status", JStr("unknown")))
    else Err(AttributeError("get"))
  }

  function ResultFile(session: Path, step: string): Path
  {
    StepDir(session, step) + [step + "_result.json"]
  }

  /** `{step}_config.json` in the step directory. */
  function ConfigFile(session: Path, step: string): Path
  {
    StepDir(session, step) + [step + "_config.json"]
  }

  /** What `save_step_config` writes: `{step, config, timestamp}`. */
  function ConfigEnvelope(step: string, config: seq<(PyKey, PyValue)>, now: string): PyValue
  {
    PDict([Field("step", S(step)), Field("config", PDict(config)), Field("timestamp", S(now))])
  }

  /** `processing_summary.json` in the intermediates directory. */
  function SummaryFile(session: Path): Path
  {
    session + ["intermediates", "processing_summary.json"]
  }

  /** What `save_processing_summary` writes: `{session_id, summary, generated_at}`. */
  function SummaryEnvelope(sessionId: string, summary: seq<(PyKey, PyValue)>, now: string): PyValue
  {
    PDict([Field("session_id", S(sessionId)), Field("summary", PDict(summary)), Field("generated_at", S(now))])
  }

  /**
   * `json.load` of a file guarded by `exists()` and a catch-all except: None
   * for a missing or undecodable file and for JSON null, else the document.
   */
  function ReadDoc(files: map<Path, FileData>, p: Path): Option<Json>
  {
    if p in files && files[p].JsonFile? && !files[p].doc.JNull? then Some(files[p].doc) else None
  }

  /**
   * A three-field envelope with a string in its first and last field is
   * written as an object with exactly those keys, each holding its field.
   */
  lemma EnvelopeFields(a: string, x: string, b: string, v: seq<(PyKey, PyValue)>, c: string, y: string)
    requires a != b && b != c && a != c
    ensures var d := Encode(PDict([Field(a, S(x)), Field(b, PDict(v)), Field(c, S(y))]));
            d.JObj? && d.fields.Keys == {a, b, c} &&
            d.fields[a] == JStr(x) && d.fields[b] == Encode(PDict(v)) && d.fields[c] == JStr(y)
  {
    var e := [Field(a, S(x)), Field(b, PDict(v)), Field(c, S(y))];
    var ne := [Field(a, S(x)), Field(b, Normalise(PDict(v))), Field(c, S(y))];
    EnvelopeNormalised(a, x, b, v, c, y);
    assert Encode(PDict(e)) == ToJson(PDict(ne));
    EnvelopeMap(PDict(ne), ne);
    assert ToJson(ne[1].1) == Encode(PDict(v));
    assert ToJson(ne[0].1) == JStr(x) && ToJson(ne[2].1) == JStr(y);
  }

  /** Normalising the envelope normalises its middle field and keeps the two strings. */
  lemma EnvelopeNormalised(a: string, x: string, b: string, v: seq<(PyKey, PyValue)>, c: string, y: string)
    ensures Normalise(PDict([Field(a, S(x)), Field(b, PDict(v)), Field(c, S(y))])) ==
            PDict([Field(a, S(x)), Field(b, Normalise(PDict(v))), Field(c, S(y))])
  {
    var e := [Field(a, S(x)), Field(b, PDict(v)), Field(c, S(y))];
    if Serializable(PDict(e)) {
      assert e[1].1 == PDict(v);
    } else {
      var ne := NormaliseEntries(PDict(e), e);
      assert ne[0] == Field(a, S(x)) && ne[1] == Field(b, Normalise(PDict(v))) && ne[2] == Field(c, S(y));
    }
  }

  /** `json.dump` of a serialisable three-entry dict with string keys. */
  lemma EnvelopeMap(n: PyValue, ne: seq<(PyKey, PyValue)>)
    requires n == PDict(ne) && Serializable(n) && |ne| == 3
    requires ne[0].0.KStr? && ne[1].0.KStr? && ne[2].0.KStr?
    ensures ToJson(n) == JObj(map[ne[0].0.s := ToJson(ne[0].1), ne[1].0.s := ToJson(ne[1].1), ne[2].0.s := ToJson(ne[2].1)])
  {
    var m0 := EntriesToMap(n, ne[..0]);
    var m1 := EntriesToMap(n, ne[..1]);
    var m2 := EntriesToMap(n, ne[..2]);
    assert ne[..1][..0] == ne[..0] && ne[..2][..1] == ne[..1] && ne[..3][..2] == ne[..2] && ne[..3] == ne;
    assert m0 == map[];
    assert m1 == m0[ne[0].0.s := ToJson(ne[0].1)];
    assert m2 == m1[ne[1].0.s := ToJson(ne[1].1)];
    assert EntriesToMap(n, ne) == m2[ne[2].0.s := ToJson(ne[2].1)];
  }

  /**
   * `save_step_config` then `load_step_config`: after a successful write the
   * loaded document names the step and holds the config and the timestamp;
   * after a failed one the load answers as before.
   */
  lemma ConfigRoundTrip(files: map<Path, FileData>, dirs: set<Path>, session: Path, step: string,
                        config: seq<(PyKey, PyValue)>, now: string, fails: Path -> bool)
    ensures var p := ConfigFile(session, step);
            var (r, after) := WriteOnce(files, dirs, p, Render(Py(ConfigEnvelope(step, config, now))), fails);
            (r.Ok? ==> ReadDoc(after, p) == Some(Encode(ConfigEnvelope(step, config, now))) &&
                       ReadDoc(after, p).value.JObj? &&
                       ReadDoc(after, p).value.fields.Keys == {"step", "config", "timestamp"} &&
                       ReadDoc(after, p).value.fields["step"] == JStr(step) &&
                       ReadDoc(after, p).value.fields["config"] == Encode(PDict(config)) &&
                       ReadDoc(after, p).value.fields["timestamp"] == JStr(now)) &&
            (r.Err? ==> ReadDoc(after, p) == ReadDoc(files, p))
  {
    EnvelopeFields("step", step, "config", config, "timestamp", now);
    WrittenObjectReads(files, dirs, ConfigFile(session, step), ConfigEnvelope(step, config, now), fails);
  }

  /**
   * The summary file, once written, is an object recording the session id,
   * the summary and the generation time; a failed write leaves it as it was.
   */
  lemma SummaryRecordsSession(files: map<Path, FileData>, dirs: set<Path>, session: Path, sessionId: string,
                              summary: seq<(PyKey, PyValue)>, now: string, fails: Path -> bool)
    ensures var p := SummaryFile(session);
            var (r, after) := WriteOnce(files, dirs, p, Render(Py(SummaryEnvelope(sessionId, summary, now))), fails);
            (r.Ok? <==> Parent(p) in dirs && !fails(p)) &&
            (r.Ok? ==> ReadDoc(after, p).Some? && ReadDoc(after, p).value.JObj? &&
                       ReadDoc(after, p).value.fields.Keys == {"session_id", "summary", "generated_at"} &&
                       ReadDoc(after, p).value.fields["session_id"] == JStr(sessionId) &&
                       ReadDoc(after, p).value.fields["summary"] == Encode(PDict(summary)) &&
                       ReadDoc(after, p).value.fields["generated_at"] == JStr(now)) &&
            (r.Err? ==> ReadDoc(after, p) == ReadDoc(files, p))
  {
    EnvelopeFields("session_id", sessionId, "summary", summary, "generated_at", now);
    WrittenObjectReads(files, dirs, SummaryFile(session), SummaryEnvelope(sessionId, summary, now), fails);
  }

  /**
   * A dict written atomically reads back as its JSON object after success,
   * and reads as before after a failure.
   */
  lemma WrittenObjectReads(files: map<Path, FileData>, dirs: set<Path>, p: Path, env: PyValue, fails: Path -> bool)
    requires |p| > 0 && env.PDict? && Encode(env).JObj?
    ensures var (r, after) := WriteOnce(files, dirs, p, Render(Py(env)), fails);
            (r.Ok? <==> Parent(p) in dirs && !fails(p)) &&
            (r.Ok? ==> ReadDoc(after, p) == Some(Encode(env))) &&
            (r.Err? ==> ReadDoc(after, p) == ReadDoc(files, p))
  {
    assert Render(Py(env)) == Some(JsonFile(Encode(env)));
    WriteOnceAtomic(files, dirs, p, Some(JsonFile(Encode(env))), fails);
  }

  predicate IsActive(status: Json) { status == JStr("processing") || status == JStr("in_progress") }

  /** The first step, in list order, whose status is processing or in_progress. */
  function FirstActive(statuses: seq<Json>): (r: Option<nat>)
    ensures r.Some? ==> r.value < |statuses| && IsActive(statuses[r.value])
                        && forall k :: 0 <= k < r.value ==> !IsActive(statuses[k])
    ensures r.None? ==> forall k :: 0 <= k < |statuses| ==> !IsActive(statuses[k])
  {
    if |statuses| == 0 then None
    else if IsActive(statuses[0]) then Some(0)
    else match FirstActive(statuses[1..])
      case None => None
      case Some(k) => Some(k + 1)
  }

  /** The number of statuses equal to "completed". */
  function CompletedCount(statuses: seq<Json>): (r: nat)
    ensures r <= |statuses|
  {
    if |statuses| == 0 then 0
    else (if statuses[0] == JStr("completed") then 1 else 0) + CompletedCount(statuses[1..])
  }

  lemma {:induction false} CompletedCountSnoc(statuses: seq<Json>, s: Json)
    ensures CompletedCount(statuses + [s]) == CompletedCount(statuses) + (if s == JStr("completed") then 1 else 0)
  {
    if |statuses| > 0 {
      assert (statuses + [s])[1..] == statuses[1..] + [s];
      CompletedCountSnoc(statuses[1..], s);
    }
  }

  lemma {:induction false} FirstActiveSnoc(statuses: seq<Json>, s: Json)
    requires FirstActive(statuses).None?
    ensures FirstActive(statuses + [s]) == if IsActive(s) then Some(|statuses|) else None
  {
    if |statuses| > 0 {
      assert (statuses + [s])[1..] == statuses[1..] + [s];
      FirstActiveSnoc(statuses[1..], s);
    }
  }

  /** The name of the step at an optional position of the step list. */
  function StepAt(i: Option<nat>): (r: Option<string>)
    ensures r.Some? <==> i.Some? && i.value < |Steps|
    ensures r.Some? ==> r.value == Steps[i.value]
  {
    if i.Some? && i.value < |Steps| then Some(Steps[i.value]) else None
  }

  datatype Progress = Progress(
    totalSteps: nat,
    completedSteps: nat,
    percentage: real,
    currentStep: Option<string>,
    stepsStatus: seq<Json>,
    sessionId: string)

  class StorageManager {
    const sessionId: string
    const session: Path
    var files: map<Path, FileData>
    /** The directories; the store creates them once and never removes one. */
    const dirs: set<Path>

    /** Every file lies in an existing directory. */
    ghost predicate Valid()
      reads this
    {
      forall f :: f in files ==> |f| > 0 && Parent(f) in dirs
    }

    /** The session tree `__init__` creates exists. */
    ghost predicate TreeMade()
    {
      Structure(session) <= dirs
    }

    /**
     * `__init__`: resolve the session path and create the directory tree.
     * `existing` and `existingDirs` are the filesystem found on disk.
     */
    constructor (base: Path, id: string, existing: map<Path, FileData>, existingDirs: set<Path>)
      requires forall f :: f in existing ==> |f| > 0 && Parent(f) in existingDirs
      ensures Valid() && TreeMade()
      ensures sessionId == id && session == SessionPath(base, id)
      ensures files == existing && dirs == existingDirs + Structure(session)
    {
      sessionId := id;
      session := SessionPath(base, id);
      files := existing;
      dirs := existingDirs + Structure(SessionPath(base, id));
    }

    /**
     * `_atomic_write` of already rendered content (`Render`; None is the
     * unsupported-type ValueError): temp file, then rename; on any failure
     * the temp file is removed and the target is left as it was.
     */
    method AtomicWrite(p: Path, data: Option<FileData>, fails: Path -> bool) returns (r: Result<(), PyError>)
      requires Valid() && |p| > 0
      modifies this`files
      ensures Valid()
      ensures (r, files) == WriteOnce(old(files), dirs, p, data, fails)
    {
      var temp := TempPath(p);
      if data.None? {
        files := files - {temp};
        return Err(ValueError("unsupported content type"));
      }
      if Parent(p) !in dirs {
        files := files - {temp};
        return Err(FileNotFoundError("no such directory"));
      }
      ghost var cleaned := files - {temp};
      files := files[temp := data.value];
      assert files - {temp} == cleaned;
      if fails(p) {
        files := files - {temp};
        return Err(IOError("write or rename failed"));
      }
      var written := files[temp];
      files := (files - {temp})[p := written];
      r := Ok(());
    }

    /** Several atomic writes in order; the first failure is re-raised. */
    method WriteEach(writes: seq<(Path, Content)>, fails: Path -> bool) returns (r: Result<(), PyError>)
      requires Valid()
      requires forall k :: 0 <= k < |writes| ==> |writes[k].0| > 0
      modifies this`files
      ensures Valid()
      ensures (r, files) == WriteAll(old(files), dirs, writes, fails)
    {
      var k := 0;
      r := Ok(());
      ghost var start := files;
      while k < |writes|
        invariant 0 <= k <= |writes| && Valid() && r == Ok(())
        invariant (Ok(()), files) == WriteAll(start, dirs, writes[..k], fails)
      {
        ghost var before := files;
        r := AtomicWrite(writes[k].0, Render(writes[k].1), fails);
        WriteAllSnoc(start, dirs, writes, fails, k);
        if r.Err? {
          WriteAllStops(start, dirs, writes, fails, k + 1);
          return;
        }
        k := k + 1;
      }
      assert writes[..k] == writes;
    }

    /**
     * `save_step_result`: validate the step, write the result envelope, then
     * the per-segment artifacts of the ASR and caption steps.
     */
    method SaveStepResult(step: string, data: seq<(PyKey, PyValue)>, metadata: Option<seq<(PyKey, PyValue)>>,
                          now: string, fails: Path -> bool)
      returns (r: Result<(), PyError>)
      requires Valid()
      modifies this`files
      ensures Valid()
      ensures step !in Steps ==> r.Err? && r.error.ValueError? && files == old(files)
      ensures step in Steps ==>
        var (r1, f1) := WriteOnce(old(files), dirs, ResultFile(session, step), Render(Py(ResultEnvelope(step, data, metadata, now))), fails);
        if r1.Err? then r == r1 && files == f1
        else if step == AsrStep || step == CaptionStep then
          var segs := DictGet(data, KStr(if step == AsrStep then "transcripts" else "captions"), PDict([]));
          if !(segs.PDict? || segs.PProxy?) then r.Err? && files == f1
          else
            var (writes, keysOk) := SegmentWrites(session, step, segs.entries, now);
            var (r2, f2) := WriteAll(f1, dirs, writes, fails);
            files == f2 && (r.Ok? <==> r2.Ok? && keysOk)
        else (r, files) == SaveAll(f1, dirs, EmbeddingSaves(session, step, data), fails)
    {
      if step !in Steps {
        return Err(ValueError("unknown step"));
      }
      r := AtomicWrite(ResultFile(session, step), Render(Py(ResultEnvelope(step, data, metadata, now))), fails);
      if r.Err? {
        return;
      }
      if step == AsrStep || step == CaptionStep {
        var segs := DictGet(data, KStr(if step == AsrStep then "transcripts" else "captions"), PDict([]));
        if !(segs.PDict? || segs.PProxy?) {
          return Err(AttributeError("items"));
        }
        var (writes, keysOk) := SegmentWrites(session, step, segs.entries, now);
        r := WriteEach(writes, fails);
        if r.Ok? && !keysOk {
          r := Err(AttributeError("zfill"));
        }
      } else {
        r := SaveEach(EmbeddingSaves(session, step, data), fails);
      }
    }

    /** The `np.save` calls of one step, in order, up to the first that raises. */
    method SaveEach(saves: seq<(Path, PyValue)>, fails: Path -> bool) returns (r: Result<(), PyError>)
      requires Valid()
      requires |saves| <= 2
      requires forall k :: 0 <= k < |saves| ==> |saves[k].0| > 0
      modifies this`files
      ensures Valid()
      ensures (r, files) == SaveAll(old(files), dirs, saves, fails)
    {
      r := Ok(());
      if |saves| == 0 {
        return;
      }
      assert [saves[0]][..0] == [];
      ghost var before := files;
      r := NpyWrite(saves[0].0, saves[0].1, fails);
      assert SaveAll(before, dirs, [saves[0]], fails) == (r, files);
      if |saves| == 1 {
        assert saves == [saves[0]];
        return;
      }
      assert saves[..|saves| - 1] == [saves[0]];
      if r.Err? {
        return;
      }
      r := NpyWrite(saves[1].0, saves[1].1, fails);
    }

    /** One `np.save`. */
    method NpyWrite(p: Path, v: PyValue, fails: Path -> bool) returns (r: Result<(), PyError>)
      requires Valid() && |p| > 0
      modifies this`files
      ensures Valid()
      ensures (r, files) == NpySave(old(files), dirs, p, v, fails)
    {
      if Parent(p) !in dirs {
        return Err(FileNotFoundError("no such directory"));
      }
      if fails(p) {
        return Err(IOError("write failed"));
      }
      files := files[p := NpyFile(v)];
      r := Ok(());
    }

    /** `save_step_config`: `{step, config, timestamp}` in `{step}_config.json`. */
    method SaveStepConfig(step: string, config: seq<(PyKey, PyValue)>, now: string, fails: Path -> bool)
      returns (r: Result<(), PyError>)
      requires Valid()
      modifies this`files
      ensures Valid()
      ensures step !in Steps ==> r.Err? && r.error.ValueError? && files == old(files)
      ensures step in Steps ==>
        (r, files) == WriteOnce(old(files), dirs, ConfigFile(session, step), Render(Py(ConfigEnvelope(step, config, now))), fails)
      ensures r.Ok? ==> LoadStepConfig(step) == Ok(Some(Encode(ConfigEnvelope(step, config, now))))
    {
      if step !in Steps {
        return Err(ValueError("unknown step"));
      }
      ConfigRoundTrip(files, dirs, session, step, config, now, fails);
      r := AtomicWrite(ConfigFile(session, step), Render(Py(ConfigEnvelope(step, config, now))), fails);
    }

    /** `save_processing_summary`: `{session_id, summary, generated_at}` in `processing_summary.json`. */
    method SaveProcessingSummary(summary: seq<(PyKey, PyValue)>, now: string, fails: Path -> bool)
      returns (r: Result<(), PyError>)
      requires Valid()
      modifies this`files
      ensures Valid()
      ensures (r, files) == WriteOnce(old(files), dirs, SummaryFile(session), Render(Py(SummaryEnvelope(sessionId, summary, now))), fails)
    {
      r := AtomicWrite(SummaryFile(session), Render(Py(SummaryEnvelope(sessionId, summary, now))), fails);
    }

    /** `save_step_stats`: `{step, stats, timestamp}` in `{step}_stats.json`. */
    method SaveStepStats(step: string, stats: seq<(PyKey, PyValue)>, now: string, fails: Path -> bool)
      returns (r: Result<(), PyError>)
      requires Valid()
      modifies this`files
      ensures Valid()
      ensures step !in Steps ==> r.Err? && r.error.ValueError? && files == old(files)
      ensures step in Steps ==>
        (r, files) == WriteOnce(old(files), dirs, StepDir(session, step) + [step + "_stats.json"],
                                Render(Py(PDict([Field("step", S(step)), Field("stats", PDict(stats)), Field("timestamp", S(now))]))), fails)
    {
      if step !in Steps {
        return Err(ValueError("unknown step"));
      }
      r := AtomicWrite(StepDir(session, step) + [step + "_stats.json"],
                       Render(Py(PDict([Field("step", S(step)), Field("stats", PDict(stats)), Field("timestamp", S(now))]))), fails);
    }

    /**
     * `append_to_log`: read the step log (missing or undecodable reads as []),
     * append one `{timestamp, level, message}` entry after all existing
     * entries, and rewrite the log atomically.
     */
    method AppendToLog(step: string, message: string, level: string, now: string, fails: Path -> bool)
      returns (r: Result<(), PyError>)
      requires Valid()
      modifies this`files
      ensures Valid()
      ensures step !in Steps ==> r.Err? && r.error.ValueError? && files == old(files)
      ensures step in Steps ==>
        var logFile := StepDir(session, step) + [step + "_log.json"];
        match ReadList(old(files), logFile)
        case Err(e) => r == Err(e) && files == old(files)
        case Ok(logs) =>
          (r, files) == WriteOnce(old(files), dirs, logFile, Some(JsonFile(JArr(logs + [LogEntry(now, level, message)]))), fails)
    {
      if step !in Steps {
        return Err(ValueError("unknown step"));
      }
      var logFile := StepDir(session, step) + [step + "_log.json"];
      var read := ReadList(files, logFile);
      if read.Err? {
        return Err(read.error);
      }
      var logs := read.value + [LogEntry(now, level, message)];
      r := AtomicWrite(logFile, Some(JsonFile(JArr(logs))), fails);
    }

    /**
     * `save_error_log`: append `{session_id, error, timestamp}` to the
     * session's error log and keep only the last 100 records, in order.
     */
    method SaveErrorLog(error: Json, now: string, fails: Path -> bool) returns (r: Result<(), PyError>)
      requires Valid()
      modifies this`files
      ensures Valid()
      ensures var errorFile := session + ["intermediates", "error_log.json"];
        match ReadList(old(files), errorFile)
        case Err(e) => r == Err(e) && files == old(files)
        case Ok(errors) =>
          (r, files) == WriteOnce(old(files), dirs, errorFile, Some(JsonFile(JArr(CapErrors(errors, ErrorRecord(sessionId, error, now))))), fails)
    {
      var errorFile := session + ["intermediates", "error_log.json"];
      var read := ReadList(files, errorFile);
      if read.Err? {
        return Err(read.error);
      }
      var errors := read.value + [ErrorRecord(sessionId, error, now)];
      if |errors| > MaxErrors {
        errors := errors[|errors| - MaxErrors..];
      }
      r := AtomicWrite(errorFile, Some(JsonFile(JArr(errors))), fails);
    }

    /**
     * `load_step_result`: None when the file is missing or cannot be read as
     * JSON, and also when it holds JSON null, which `json.load` returns as None.
     */
    function LoadStepResult(step: string): (r: Result<Option<Json>, PyError>)
      reads this
      ensures step !in Steps <==> r.Err?
      ensures step in Steps ==>
        r.value == (var p := ResultFile(session, step);
                    if p in files && files[p].JsonFile? && !files[p].doc.JNull? then Some(files[p].doc) else None)
    {
      if step !in Steps then Err(ValueError("unknown step"))
      else
        var p := ResultFile(session, step);
        if p in files && files[p].JsonFile? && !files[p].doc.JNull? then Ok(Some(files[p].doc)) else Ok(None)
    }

    /**
     * `load_step_config`: an unknown step raises ValueError; a missing or
     * unreadable config file, or one holding JSON null, gives None;
     * otherwise the whole stored `{step, config, timestamp}` document.
     */
    function LoadStepConfig(step: string): (r: Result<Option<Json>, PyError>)
      reads this
      ensures step !in Steps <==> r.Err?
      ensures r.Err? ==> r.error.ValueError?
      ensures step in Steps ==>
        (r.value.Some? <==> ConfigFile(session, step) in files && files[ConfigFile(session, step)].JsonFile? &&
                            !files[ConfigFile(session, step)].doc.JNull?) &&
        (r.value.Some? ==> r.value.value == files[ConfigFile(session, step)].doc)
    {
      if step !in Steps then Err(ValueError("unknown step"))
      else Ok(ReadDoc(files, ConfigFile(session, step)))
    }

    /** `get_step_status`: "not_started" without a readable result; otherwise its stored status. */
    function GetStepStatus(step: string): (r: Result<Json, PyError>)
      reads this
      ensures step !in Steps ==> r.Err? && r.error.ValueError?
      ensures step in Steps ==> r == StatusOf(files, ResultFile(session, step))
      ensures step in Steps && LoadStepResult(step).value.None? ==> r == Ok(JStr("not_started"))
    {
      if step !in Steps then Err(ValueError("unknown step"))
      else match LoadStepResult(step).value
        case None => Ok(JStr("not_started"))
        case Some(doc) => if doc.JObj? then Ok(GetField(doc, "status", JStr("unknown"))) else Err(AttributeError("get"))
    }

    /** `get_all_steps_status`: the status of every step, in step order, or the first error. */
    method GetAllStepsStatus() returns (r: Result<seq<Json>, PyError>)
      ensures r.Ok? <==> forall k :: 0 <= k < |Steps| ==> GetStepStatus(Steps[k]).Ok?
      ensures r.Ok? ==> |r.value| == |Steps| &&
                        forall k :: 0 <= k < |Steps| ==> GetStepStatus(Steps[k]) == Ok(r.value[k])
    {
      var statuses: seq<Json> := [];
      var k := 0;
      while k < |Steps|
        invariant 0 <= k <= |Steps| && |statuses| == k
        invariant forall j :: 0 <= j < k ==> GetStepStatus(Steps[j]) == Ok(statuses[j])
      {
        var status := GetStepStatus(Steps[k]);
        if status.Err? {
          return Err(status.error);
        }
        statuses := statuses + [status.value];
        k := k + 1;
      }
      r := Ok(statuses);
    }

    /**
     * `get_processing_progress`: count the completed steps out of 10 and
     * find the first step that is processing or in progress.
     */
    method GetProcessingProgress() returns (r: Result<Progress, PyError>)
      ensures r.Ok? <==> forall k :: 0 <= k < |Steps| ==> GetStepStatus(Steps[k]).Ok?
      ensures r.Ok? ==>
        var statuses := r.value.stepsStatus;
        |statuses| == |Steps| && r.value.totalSteps == 10 &&
        (forall k :: 0 <= k < |Steps| ==> GetStepStatus(Steps[k]) == Ok(statuses[k])) &&
        r.value.completedSteps == CompletedCount(statuses) &&
        r.value.percentage == (CompletedCount(statuses) as real / 10.0) * 100.0 &&
        r.value.currentStep == StepAt(FirstActive(statuses)) &&
        r.value.sessionId == sessionId
    {
      var all := GetAllStepsStatus();
      if all.Err? {
        return Err(all.error);
      }
      var statuses := all.value;
      var completed, current := SummarizeSteps(statuses);
      r := Ok(Progress(10, completed, (completed as real / 10.0) * 100.0, current, statuses, sessionId));
    }

    /** The counting loop of `get_processing_progress`: completed steps and the first active step. */
    method SummarizeSteps(statuses: seq<Json>) returns (completed: nat, current: Option<string>)
      requires |statuses| == |Steps|
      ensures completed == CompletedCount(statuses) && current == StepAt(FirstActive(statuses))
    {
      completed := 0;
      current := None;
      ghost var first: Option<nat> := None;
      var k := 0;
      while k < |statuses|
        invariant 0 <= k <= |statuses| == |Steps|
        invariant completed == CompletedCount(statuses[..k])
        invariant first == FirstActive(statuses[..k]) && current == StepAt(first)
      {
        assert statuses[..k + 1] == statuses[..k] + [statuses[k]];
        CompletedCountSnoc(statuses[..k], statuses[k]);
        if statuses[k] == JStr("completed") {
          completed := completed + 1;
        }
        if current.None? {
          FirstActiveSnoc(statuses[..k], statuses[k]);
          if IsActive(statuses[k]) {
            current := Some(Steps[k]);
            first := Some(k);
          }
        } else {
          FirstActivePrefix(statuses[..k], statuses[k]);
        }
        k := k + 1;
      }
      assert statuses[..k] == statuses;
    }

    /**
     * `list_intermediate_files`: the files under each step directory, as
     * paths relative to the session.  With a (non-empty) step name only that
     * step is listed, after checking it; without one, only the steps that
     * hold files appear.
     */
    function ListIntermediateFiles(step: Option<string>): (r: Result<map<string, set<Path>>, PyError>)
      reads this
      ensures step.Some? && step.value != "" && step.value !in Steps ==> r.Err?
      ensures step.Some? && step.value in Steps ==> r.Ok? && r.value.Keys == {step.value}
      ensures (step.None? || step.value == "") ==>
                r.Ok? && forall s :: s in r.value <==> s in Steps && |FilesUnder(s)| > 0
    {
      if step.Some? && step.value != "" then
        if step.value !in Steps then Err(ValueError("unknown step"))
        else Ok(map[step.value := FilesUnder(step.value)])
      else Ok(map s | s in Steps && |FilesUnder(s)| > 0 :: FilesUnder(s))
    }

    /** Files below a step directory, relative to the session path. */
    function FilesUnder(step: string): set<Path>
      reads this
    {
      set f | f in files && StepDir(session, step) < f :: f[|session|..]
    }

    /** `cleanup_temp_files`: every `*.tmp` file below the session is removed. */
    method CleanupTempFiles()
      requires Valid()
      modifies this`files
      ensures Valid()
      ensures forall f :: f in files <==> f in old(files) && !IsSessionTemp(f)
      ensures forall f :: f in files ==> files[f] == old(files)[f]
    {
      var temps := set f | f in files && IsSessionTemp(f);
      while temps != {}
        invariant Valid() && temps <= old(files).Keys
        invariant forall f :: f in files <==> f in old(files) && (!IsSessionTemp(f) || f in temps)
        invariant forall f :: f in files ==> files[f] == old(files)[f]
        decreases temps
      {
        var t :| t in temps;
        files := files - {t};
        temps := temps - {t};
      }
    }

    predicate IsSessionTemp(f: Path)
      reads this
    {
      session < f && EndsWith(f[|f| - 1], ".tmp")
    }
  }

  /** One more write extends a successful prefix of writes. */
  lemma WriteAllSnoc(files: map<Path, FileData>, dirs: set<Path>, writes: seq<(Path, Content)>, fails: Path -> bool, k: nat)
    requires forall j :: 0 <= j < |writes| ==> |writes[j].0| > 0
    requires k < |writes|
    requires WriteAll(files, dirs, writes[..k], fails).0.Ok?
    ensures WriteAll(files, dirs, writes[..k + 1], fails)
            == WriteOnce(WriteAll(files, dirs, writes[..k], fails).1, dirs, writes[k].0, Render(writes[k].1), fails)
  {
    assert writes[..k + 1][..k] == writes[..k];
  }

  lemma {:induction false} WriteAllStops(files: map<Path, FileData>, dirs: set<Path>, writes: seq<(Path, Content)>,
                                         fails: Path -> bool, k: nat)
    requires forall j :: 0 <= j < |writes| ==> |writes[j].0| > 0
    requires 0 < k <= |writes|
    requires WriteAll(files, dirs, writes[..k], fails).0.Err?
    ensures WriteAll(files, dirs, writes, fails) == WriteAll(files, dirs, writes[..k], fails)
    decreases |writes| - k
  {
    if k < |writes| {
      assert writes[..k + 1][..k] == writes[..k];
      WriteAllStops(files, dirs, writes, fails, k + 1);
    } else {
      assert writes[..k] == writes;
    }
  }

  lemma {:induction false} FirstActivePrefix(statuses: seq<Json>, s: Json)
    requires FirstActive(statuses).Some?
    ensures FirstActive(statuses + [s]) == FirstActive(statuses)
  {
    if !IsActive(statuses[0]) {
      assert (statuses + [s])[1..] == statuses[1..] + [s];
      FirstActivePrefix(statuses[1..], s);
    }
  }

  /**
   * After a successful run of the segment writes for the ASR or caption
   * step, every segment key whose padded name no later key shares has its
   * own `segment_{id.zfill(3)}.json` holding `{segment_id, value, timestamp}`.
   */
  lemma {:induction false} SegmentFilesWritten(files: map<Path, FileData>, dirs: set<Path>, session: Path, step: string,
                                               segments: seq<(PyKey, PyValue)>, now: string, fails: Path -> bool, i: nat)
    requires SegmentWrites(session, step, segments, now).1
    requires WriteAll(files, dirs, SegmentWrites(session, step, segments, now).0, fails).0.Ok?
    requires i < |segments|
    requires forall j :: i < j < |segments| ==> ZFill(segments[j].0.s, 3) != ZFill(segments[i].0.s, 3)
    ensures var after := WriteAll(files, dirs, SegmentWrites(session, step, segments, now).0, fails).1;
            var id := segments[i].0.s;
            SegmentFile(SegmentDir(session, step), id) in after &&
            after[SegmentFile(SegmentDir(session, step), id)] == JsonFile(Encode(SegmentRecord(step, id, segments[i].1, now)))
  {
    SegmentWritesDistinct(session, step, segments, now, i);
    WriteAllKeeps(files, dirs, SegmentWrites(session, step, segments, now).0, fails, i);
  }

  /** No later segment write targets the i-th segment's file or its temp file. */
  lemma SegmentWritesDistinct(session: Path, step: string, segments: seq<(PyKey, PyValue)>, now: string, i: nat)
    requires SegmentWrites(session, step, segments, now).1
    requires i < |segments|
    requires forall j :: i < j < |segments| ==> ZFill(segments[j].0.s, 3) != ZFill(segments[i].0.s, 3)
    ensures var writes := SegmentWrites(session, step, segments, now).0;
            forall j :: i < j < |writes| ==> writes[j].0 != writes[i].0 && TempPath(writes[j].0) != writes[i].0
  {
    var writes := SegmentWrites(session, step, segments, now).0;
    forall j | i < j < |writes|
      ensures writes[j].0 != writes[i].0 && TempPath(writes[j].0) != writes[i].0
    {
      SegmentFilesDistinct(SegmentDir(session, step), segments[i].0.s, segments[j].0.s);
    }
  }

  /** Segment files with different padded ids differ, and no segment file is another's temp file. */
  lemma SegmentFilesDistinct(dir: Path, a: string, b: string)
    requires ZFill(a, 3) != ZFill(b, 3)
    ensures SegmentFile(dir, a) != SegmentFile(dir, b)
    ensures TempPath(SegmentFile(dir, b)) != SegmentFile(dir, a)
  {
    var na := "segment_" + ZFill(a, 3) + ".json";
    var nb := "segment_" + ZFill(b, 3) + ".json";
    assert na[8..|na| - 5] == ZFill(a, 3);
    assert nb[8..|nb| - 5] == ZFill(b, 3);
    assert TempPath(dir + [nb]) == dir + [nb + ".tmp"];
    assert (nb + ".tmp")[|nb| + 3] == 'p' && na[|na| - 1] == 'n';
  }

  /**
   * When a run of writes succeeds, the file written at position i keeps its
   * content unless a later write targets the same path or its temp file.
   */
  lemma {:induction false} WriteAllKeeps(files: map<Path, FileData>, dirs: set<Path>, writes: seq<(Path, Content)>,
                                         fails: Path -> bool, i: nat)
    requires forall k :: 0 <= k < |writes| ==> |writes[k].0| > 0
    requires WriteAll(files, dirs, writes, fails).0.Ok?
    requires i < |writes|
    requires forall j :: i < j < |writes| ==> writes[j].0 != writes[i].0 && TempPath(writes[j].0) != writes[i].0
    ensures var after := WriteAll(files, dirs, writes, fails).1;
            writes[i].0 in after && Render(writes[i].1).Some? && after[writes[i].0] == Render(writes[i].1).value
    decreases |writes|
  {
    var n := |writes| - 1;
    var (r0, f0) := WriteAll(files, dirs, writes[..n], fails);
    if i < n {
      assert forall k :: 0 <= k < n ==> writes[..n][k] == writes[k];
      WriteAllKeeps(files, dirs, writes[..n], fails, i);
    }
  }
}
