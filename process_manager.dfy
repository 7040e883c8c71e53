// The registry of worker processes kept by the API servers, the status
// documents its operations write, the indexing worker's progress callbacks,
// the active-session count derived from the registry keys, and the
// once-only shutdown hook.  Process liveness and the OS process table are
// inputs; spawning a worker is modelled by the pid it receives.
module ProcessManager {
  import opened Common
  import opened StatusStore
  import opened ImageBindManager

  /** One `running_processes` entry: `{process, type, chat_id, started_at}`. */
  datatype ProcessRecord = ProcessRecord(kind: string, chatId: string, startedAt: real, pid: nat)

  /** One row of the OS process table: pid and argv. */
  datatype OsProcess = OsProcess(pid: nat, cmdline: seq<string>)

  const QuerySuffix := "_query"

  /** The record key of a query worker. */
  function QueryKey(chatId: string): string { chatId + QuerySuffix }

  /** The names the workers give themselves with setproctitle / argv[0]. */
  function IndexWorkerName(chatId: string): string { "videorag-index-" + chatId }
  function QueryWorkerName(chatId: string): string { "videorag-query-" + chatId }

  /** The document `start_video_indexing` writes in place of whatever was there. */
  function InitialStatus(totalVideos: nat, now: real): Json
  {
    JObj(map[
      "indexing_status" := JObj(map[
        "status" := JStr("processing"),
        "message" := JStr("Initializing AI Assistant..."),
        "current_step" := JStr("Initializing"),
        "total_videos" := Int(totalVideos),
        "processed_videos" := Int(0)]),
      "indexed_videos" := JArr([]),
      "created_at" := JNum(now)])
  }

  /** The fields `start_query_processing` merges into query_status. */
  function QueryStartFields(query: string, now: real): map<string, Json>
  {
    map["status" := JStr("processing"), "message" := JStr("Starting query processing..."),
        "current_step" := JStr("Initializing"), "query" := JStr(query), "answer" := JNull,
        "started_at" := JNum(now)]
  }

  /** The fields `terminate_process` merges into indexing_status. */
  const TerminatedFields: map<string, Json> :=
    map["status" := JStr("terminated"), "message" := JStr("Process terminated by user"),
        "current_step" := JStr("Terminated")]

  /** Python truthiness of `self.global_config`. */
  predicate ConfigSet(config: Option<map<string, string>>) { config.Some? && |config.value| > 0 }

  /**
   * `self.global_config.get("base_storage_path")` followed by the
   * `os.path.join` in `get_session_status_file`: no config has no `get`, and
   * a missing path makes the join raise.
   */
  function BasePath(config: Option<map<string, string>>): (r: Result<string, PyError>)
    ensures r.Ok? <==> config.Some? && "base_storage_path" in config.value
    ensures r.Ok? ==> r.value == config.value["base_storage_path"]
  {
    if config.None? then Err(AttributeError("get"))
    else if "base_storage_path" !in config.value then Err(TypeError("expected str, not NoneType"))
    else Ok(config.value["base_storage_path"])
  }

  /**
   * The chat id an active-session count attributes a record key to: a key
   * ending in "_query" loses that suffix (`key.rsplit('_query', 1)[0]`, whose
   * last occurrence is the suffix itself); any other key is the chat id.
   */
  function ActiveSession(key: string): (r: string)
    ensures EndsWith(key, QuerySuffix) ==> r + QuerySuffix == key
    ensures !EndsWith(key, QuerySuffix) ==> r == key
  {
    if EndsWith(key, QuerySuffix) then key[..|key| - |QuerySuffix|] else key
  }

  /** An indexing record and a query record of one chat count as one session. */
  lemma IndexAndQueryCountOnce(chatId: string)
    requires !EndsWith(chatId, QuerySuffix)
    ensures ActiveSession(chatId) == ActiveSession(QueryKey(chatId)) == chatId
  {
    assert (chatId + QuerySuffix)[|chatId|..] == QuerySuffix;
    assert (chatId + QuerySuffix)[..|chatId|] == chatId;
  }

  /** Whether cleanup's sweep kills this row: a worker name in argv[0], and not ourselves. */
  predicate Orphan(p: OsProcess, currentPid: nat)
  {
    |p.cmdline| > 0 && p.pid != currentPid &&
    (Contains(p.cmdline[0], "videorag-index-") || Contains(p.cmdline[0], "videorag-query-"))
  }

  /** Every worker this manager names is caught by cleanup's sweep, unless it is ourselves. */
  lemma WorkersAreSwept(chatId: string, pid: nat, currentPid: nat, rest: seq<string>)
    requires pid != currentPid
    ensures Orphan(OsProcess(pid, [IndexWorkerName(chatId)] + rest), currentPid)
    ensures Orphan(OsProcess(pid, [QueryWorkerName(chatId)] + rest), currentPid)
  {
    assert "videorag-index-" <= IndexWorkerName(chatId);
    assert "videorag-query-" <= QueryWorkerName(chatId);
  }

  /** The `indexing_status` fields `progress_callback` writes. */
  function ProgressFields(stepName: string, message: string): (r: map<string, Json>)
    ensures r.Keys == {"status", "message", "current_step"}
    ensures r["status"] == JStr("completed") <==> stepName == "Completed"
    ensures r["status"] == JStr("processing") <==> stepName != "Completed"
    ensures r["current_step"] == JStr(stepName) && r["message"] == JStr(message)
  {
    map["status" := JStr(if stepName != "Completed" then "processing" else "completed"),
        "message" := JStr(message), "current_step" := JStr(stepName)]
  }

  /** Whether `progress_callback` goes on to record an indexed video. */
  predicate RecordsVideo(stepName: string, indexedPath: Option<string>)
  {
    indexedPath.Some? && |indexedPath.value| > 0 && stepName == "One Video Completed"
  }

  /**
   * The in-memory step of `add_indexed_video`: create the list when absent,
   * append the path, stamp `last_updated`.  A document that is not an object
   * raises TypeError; an indexed_videos value that is not a list has no
   * `append`.
   */
  function AppendIndexed(doc: Json, path: string, now: real): (r: Result<Json, PyError>)
    ensures r.Ok? <==> doc.JObj? && GetField(doc, "indexed_videos", JArr([])).JArr?
    ensures r.Ok? ==> r.value.JObj? && "indexed_videos" in r.value.fields
    ensures r.Ok? ==> r.value.fields["indexed_videos"] == JArr(GetField(doc, "indexed_videos", JArr([])).items + [JStr(path)])
    ensures r.Ok? ==> r.value.fields.Keys == doc.fields.Keys + {"indexed_videos", "last_updated"}
    ensures r.Ok? ==> forall k :: k in doc.fields && k != "indexed_videos" && k != "last_updated" ==>
                        r.value.fields[k] == doc.fields[k]
  {
    if !doc.JObj? then Err(TypeError("status document is not a dict"))
    else
      var list := GetField(doc, "indexed_videos", JArr([]));
      if !list.JArr? then Err(AttributeError("append"))
      else Ok(JObj(doc.fields["indexed_videos" := JArr(list.items + [JStr(path)])]["last_updated" := JNum(now)]))
  }

  /**
   * `get_session_status`: None without a config; the query namespace for
   * type "query" and the indexing namespace for any other type.  Python's
   * None is JNull here; a failing lookup is caught and yields None too.
   */
  function SessionStatus(config: Option<map<string, string>>, files: Disk, chatId: string, statusType: string): (r: Json)
    ensures !ConfigSet(config) ==> r == JNull
    ensures ConfigSet(config) && BasePath(config).Ok? ==>
              var doc := ReadStatus(files, StatusFilePath(BasePath(config).value, chatId));
              r == GetField(doc, if statusType == "query" then "query_status" else "indexing_status", JNull)
  {
    if !ConfigSet(config) then JNull
    else match BasePath(config)
      case Err(_) => JNull
      case Ok(base) =>
        var doc := ReadStatus(files, StatusFilePath(base, chatId));
        if !doc.JObj? then JNull
        else GetField(doc, if statusType == "query" then "query_status" else "indexing_status", JNull)
  }

  /** `get_indexed_videos`: [] without a config or on error, else the stored list. */
  function IndexedVideos(config: Option<map<string, string>>, files: Disk, chatId: string): (r: Json)
    ensures !ConfigSet(config) ==> r == JArr([])
    ensures ConfigSet(config) && BasePath(config).Ok? ==>
              var doc := ReadStatus(files, StatusFilePath(BasePath(config).value, chatId));
              r == GetField(doc, "indexed_videos", JArr([]))
  {
    if !ConfigSet(config) then JArr([])
    else match BasePath(config)
      case Err(_) => JArr([])
      case Ok(base) =>
        var doc := ReadStatus(files, StatusFilePath(base, chatId));
        if !doc.JObj? then JArr([]) else GetField(doc, "indexed_videos", JArr([]))
  }

  /** After a successful start, the session's document is exactly the fresh one. */
  lemma StartReplacesDocument(files: Disk, base: string, chatId: string, total: nat, now: real)
    ensures var after := WriteStatus(files, StatusFilePath(base, chatId), InitialStatus(total, now), false).1;
            var doc := ReadStatus(after, StatusFilePath(base, chatId));
            doc == InitialStatus(total, now) && "query_status" !in doc.fields &&
            doc.fields["indexed_videos"] == JArr([])
  {
  }

  /**
   * Once a termination's status rewrite went through, the session's
   * indexing status reads back as terminated by the user, and every
   * other field of that status is kept.
   */
  lemma TerminationMarksStatus(files: Disk, path: string, now: real, f: string)
    requires MergeStatus(ReadStatus(files, path), "indexing_status", TerminatedFields, now).Ok?
    ensures var doc := MergeStatus(ReadStatus(files, path), "indexing_status", TerminatedFields, now).value;
            var ns := Namespace(ReadStatus(WriteStatus(files, path, doc, false).1, path), "indexing_status");
            ns.JObj? && ns.fields["status"] == JStr("terminated") &&
            ns.fields["message"] == JStr("Process terminated by user") &&
            ns.fields["current_step"] == JStr("Terminated") &&
            (f !in TerminatedFields && f in Namespace(ReadStatus(files, path), "indexing_status").fields ==>
               f in ns.fields && ns.fields[f] == Namespace(ReadStatus(files, path), "indexing_status").fields[f])
  {
    UpdateThenRead(files, path, "indexing_status", TerminatedFields, now, "status");
    UpdateThenRead(files, path, "indexing_status", TerminatedFields, now, "message");
    UpdateThenRead(files, path, "indexing_status", TerminatedFields, now, "current_step");
    UpdateThenRead(files, path, "indexing_status", TerminatedFields, now, f);
  }

  /** `VideoRAGProcessManager`. */
  class VideoRagProcessManager {
    var globalConfig: Option<map<string, string>>
    var running: map<string, ProcessRecord>
    const disk: StatusDisk

    constructor (disk: StatusDisk)
      ensures globalConfig.None? && running == map[] && this.disk == disk
    {
      globalConfig := None;
      running := map[];
      this.disk := disk;
    }

    method SetGlobalConfig(config: map<string, string>) returns (ok: bool)
      modifies this
      ensures ok && globalConfig == Some(config) && running == old(running)
    {
      globalConfig := Some(config);
      ok := true;
    }

    /**
     * `start_video_indexing`: overwrite the status document, spawn the
     * worker (whose pid is given) and record it under `chat_id`, replacing
     * any earlier record.  Failures re-raise before the record is made.
     */
    method StartVideoIndexing(chatId: string, videoPaths: seq<string>, now: real, pid: nat, fails: bool)
      returns (r: Result<bool, PyError>)
      modifies this, disk
      ensures globalConfig == old(globalConfig)
      ensures BasePath(globalConfig).Err? ==>
                r == Err(BasePath(globalConfig).error) && running == old(running) && disk.files == old(disk.files)
      ensures BasePath(globalConfig).Ok? ==>
                var w := WriteStatus(old(disk.files), StatusFilePath(BasePath(globalConfig).value, chatId),
                                     InitialStatus(|videoPaths|, now), fails);
                disk.files == w.1 &&
                (w.0.Err? ==> r == Err(w.0.error) && running == old(running)) &&
                (w.0.Ok? ==> r == Ok(true) && running == old(running)[chatId := ProcessRecord("video_indexing", chatId, now, pid)])
    {
      var base := BasePath(globalConfig);
      if base.Err? {
        return Err(base.error);
      }
      var w := disk.WriteStatusJson(StatusFilePath(base.value, chatId), InitialStatus(|videoPaths|, now), fails);
      if w.Err? {
        return Err(w.error);
      }
      running := running[chatId := ProcessRecord("video_indexing", chatId, now, pid)];
      r := Ok(true);
    }

    /**
     * `start_query_processing`: merge the query start into query_status,
     * spawn the worker and record it under `chat_id + "_query"`.
     */
    method StartQueryProcessing(chatId: string, query: string, now: real, pid: nat, fails: bool)
      returns (r: Result<bool, PyError>)
      modifies this, disk
      ensures globalConfig == old(globalConfig)
      ensures BasePath(globalConfig).Err? ==>
                r == Err(BasePath(globalConfig).error) && running == old(running) && disk.files == old(disk.files)
      ensures BasePath(globalConfig).Ok? ==>
                var path := StatusFilePath(BasePath(globalConfig).value, chatId);
                match MergeStatus(ReadStatus(old(disk.files), path), "query_status", QueryStartFields(query, now), now)
                case Err(e) => r == Err(e) && running == old(running) && disk.files == old(disk.files)
                case Ok(doc) =>
                  var w := WriteStatus(old(disk.files), path, doc, fails);
                  disk.files == w.1 &&
                  (w.0.Err? ==> r == Err(w.0.error) && running == old(running)) &&
                  (w.0.Ok? ==>
                     r == Ok(true) &&
                     running == old(running)[QueryKey(chatId) := ProcessRecord("query_processing", chatId, now, pid)])
    {
      var base := BasePath(globalConfig);
      if base.Err? {
        return Err(base.error);
      }
      var u := disk.UpdateSessionStatus(chatId, base.value, "query_status", QueryStartFields(query, now), now, fails);
      if u.Err? {
        return Err(u.error);
      }
      running := running[QueryKey(chatId) := ProcessRecord("query_processing", chatId, now, pid)];
      r := Ok(true);
    }

    /**
     * `terminate_process`: only the key `chat_id` is looked up.  An existing
     * record is stopped and removed unless stopping it raises (`stopRaises`),
     * which is logged and swallowed.  With a config set, indexing_status is
     * marked terminated whether or not a record existed; an error there
     * propagates.
     */
    method TerminateProcess(chatId: string, stopRaises: bool, now: real, fails: bool)
      returns (r: Result<seq<string>, PyError>)
      modifies this, disk
      ensures globalConfig == old(globalConfig)
      ensures var removed := chatId in old(running) && !stopRaises;
              running == (if removed then old(running) - {chatId} else old(running)) &&
              (r.Ok? ==> r.value == (if removed then [chatId] else []))
      ensures !ConfigSet(globalConfig) ==> r.Ok? && disk.files == old(disk.files)
      ensures ConfigSet(globalConfig) && BasePath(globalConfig).Err? ==> r.Err? && disk.files == old(disk.files)
      ensures ConfigSet(globalConfig) && BasePath(globalConfig).Ok? ==>
                var path := StatusFilePath(BasePath(globalConfig).value, chatId);
                match MergeStatus(ReadStatus(old(disk.files), path), "indexing_status", TerminatedFields, now)
                case Err(e) => r == Err(e) && disk.files == old(disk.files)
                case Ok(doc) => (r.Ok? <==> !fails) && disk.files == WriteStatus(old(disk.files), path, doc, fails).1
    {
      var terminated: seq<string> := [];
      if chatId in running && !stopRaises {
        terminated := [chatId];
        running := running - {chatId};
      }
      if ConfigSet(globalConfig) {
        var base := BasePath(globalConfig);
        if base.Err? {
          return Err(base.error);
        }
        var u := disk.UpdateSessionStatus(chatId, base.value, "indexing_status", TerminatedFields, now, fails);
        if u.Err? {
          return Err(u.error);
        }
      }
      r := Ok(terminated);
    }

    /**
     * `delete_session`: terminate, reporting any exception as False.  The
     * record goes unless stopping the worker raised; with a configuration
     * the status file is rewritten with the terminated fields, and the
     * answer is True exactly when that rewrite (if any) went through.
     */
    method DeleteSession(chatId: string, stopRaises: bool, now: real, fails: bool) returns (ok: bool)
      modifies this, disk
      ensures globalConfig == old(globalConfig)
      ensures chatId !in old(running) || stopRaises ==> running == old(running)
      ensures chatId in old(running) && !stopRaises ==> running == old(running) - {chatId}
      ensures !ConfigSet(globalConfig) ==> ok && disk.files == old(disk.files)
      ensures ConfigSet(globalConfig) && BasePath(globalConfig).Err? ==> !ok && disk.files == old(disk.files)
      ensures ConfigSet(globalConfig) && BasePath(globalConfig).Ok? ==>
                var path := StatusFilePath(BasePath(globalConfig).value, chatId);
                match MergeStatus(ReadStatus(old(disk.files), path), "indexing_status", TerminatedFields, now)
                case Err(_) => !ok && disk.files == old(disk.files)
                case Ok(doc) => (ok <==> !fails) && disk.files == WriteStatus(old(disk.files), path, doc, fails).1
    {
      var r := TerminateProcess(chatId, stopRaises, now, fails);
      ok := r.Ok?;
    }

    function GetSessionStatus(chatId: string, statusType: string): Json
      reads this, disk
    {
      SessionStatus(globalConfig, disk.files, chatId, statusType)
    }

    function GetIndexedVideos(chatId: string): Json
      reads this, disk
    {
      IndexedVideos(globalConfig, disk.files, chatId)
    }

    /**
     * `cleanup`: stop the tracked workers, kill every other process whose
     * argv[0] carries a worker name (never our own pid), then forget all
     * records.  Returns the pids the sweep killed, in table order.
     */
    method Cleanup(table: seq<OsProcess>, currentPid: nat) returns (killed: seq<nat>)
      modifies this
      ensures running == map[] && globalConfig == old(globalConfig)
      ensures forall p :: p in killed <==> exists k :: 0 <= k < |table| && table[k].pid == p && Orphan(table[k], currentPid)
      ensures currentPid !in killed
    {
      killed := [];
      var k := 0;
      while k < |table|
        invariant 0 <= k <= |table|
        invariant forall p :: p in killed <==> exists j :: 0 <= j < k && table[j].pid == p && Orphan(table[j], currentPid)
      {
        if Orphan(table[k], currentPid) {
          killed := killed + [table[k].pid];
        }
        k := k + 1;
      }
      running := map[];
    }

    /** The active sessions of `get_system_status`: one per chat id among the record keys. */
    method ActiveSessions() returns (sessions: set<string>)
      ensures sessions == set key | key in running :: ActiveSession(key)
      ensures |sessions| <= |running|
    {
      sessions := {};
      var todo := running.Keys;
      while todo != {}
        invariant todo <= running.Keys
        invariant sessions == set key | key in running.Keys - todo :: ActiveSession(key)
        invariant |sessions| <= |running.Keys - todo|
        decreases |todo|
      {
        var key :| key in todo;
        var done := running.Keys - todo;
        assert running.Keys - (todo - {key}) == done + {key};
        sessions := sessions + {ActiveSession(key)};
        assert |done + {key}| == |done| + 1;
        todo := todo - {key};
      }
      assert running.Keys - todo == running.Keys;
    }
  }

  /**
   * The indexing worker's `progress_callback`: merge the step into
   * indexing_status, then, for "One Video Completed" with a path, append
   * the path to indexed_videos (`add_indexed_video`).
   */
  method ProgressCallback(disk: StatusDisk, chatId: string, base: string, stepName: string, message: string,
                          indexedPath: Option<string>, now: real, failsStatus: bool, failsAppend: bool)
    returns (r: Result<(), PyError>)
    modifies disk
    ensures var path := StatusFilePath(base, chatId);
            match MergeStatus(ReadStatus(old(disk.files), path), "indexing_status", ProgressFields(stepName, message), now)
            case Err(e) => r == Err(e) && disk.files == old(disk.files)
            case Ok(doc) =>
              var w := WriteStatus(old(disk.files), path, doc, failsStatus);
              (w.0.Err? ==> r == w.0 && disk.files == w.1) &&
              (w.0.Ok? && !RecordsVideo(stepName, indexedPath) ==> r.Ok? && disk.files == w.1) &&
              (w.0.Ok? && RecordsVideo(stepName, indexedPath) ==>
                 match AppendIndexed(doc, indexedPath.value, now)
                 case Err(e) => r == Err(e) && disk.files == w.1
                 case Ok(doc2) => (r, disk.files) == WriteStatus(w.1, path, doc2, failsAppend))
  {
    var path := StatusFilePath(base, chatId);
    r := disk.UpdateSessionStatus(chatId, base, "indexing_status", ProgressFields(stepName, message), now, failsStatus);
    if r.Err? || !RecordsVideo(stepName, indexedPath) {
      return;
    }
    r := AddIndexedVideo(disk, chatId, base, indexedPath.value, now, failsAppend);
  }

  /** `add_indexed_video`: read, append, write back. */
  method AddIndexedVideo(disk: StatusDisk, chatId: string, base: string, videoPath: string, now: real, fails: bool)
    returns (r: Result<(), PyError>)
    modifies disk
    ensures var path := StatusFilePath(base, chatId);
            match AppendIndexed(ReadStatus(old(disk.files), path), videoPath, now)
            case Err(e) => r == Err(e) && disk.files == old(disk.files)
            case Ok(doc) => (r, disk.files) == WriteStatus(old(disk.files), path, doc, fails)
  {
    var path := StatusFilePath(base, chatId);
    var doc := AppendIndexed(disk.ReadStatusJson(path), videoPath, now);
    if doc.Err? {
      return Err(doc.error);
    }
    r := disk.WriteStatusJson(path, doc.value, fails);
  }

  /** The module-level state `cleanup_on_exit` guards with `_cleanup_called`. */
  class ShutdownHook {
    var cleanupCalled: bool

    constructor ()
      ensures !cleanupCalled
    {
      cleanupCalled := false;
    }

    /**
     * `cleanup_on_exit`: the body runs only on the first call; it cleans up
     * the process manager and the embedder when they exist.
     */
    method CleanupOnExit(pm: VideoRagProcessManager?, im: GlobalImageBindManager?, table: seq<OsProcess>, currentPid: nat)
      requires im != null ==> im.Valid()
      modifies this, pm, im
      ensures cleanupCalled
      ensures old(cleanupCalled) ==> (pm != null ==> unchanged(pm)) && (im != null ==> unchanged(im))
      ensures !old(cleanupCalled) && pm != null ==> pm.running == map[]
      ensures !old(cleanupCalled) && im != null ==> im.Valid() && im.State() == CleanedUp(old(im.State()))
    {
      if cleanupCalled {
        return;
      }
      cleanupCalled := true;
      if pm != null {
        var _ := pm.Cleanup(table, currentPid);
      }
      if im != null {
        im.Cleanup();
      }
    }
  }
}
