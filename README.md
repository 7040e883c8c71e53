# VideoRAG bookkeeping, modelled in Dafny

VideoRAG indexes long videos for retrieval-augmented question answering. A
video is cut into segments, each segment is transcribed and captioned, the
pieces are embedded into vector stores, and a knowledge graph is built over
the chunks. Around that pipeline sit API servers that run indexing and
query workers and report their progress through per-session status files,
a web client that picks videos, shows progress and keeps chat histories, and
evaluation scripts that tally judge verdicts. This project models the
bookkeeping of all of that: the parts that decide what is written where,
what is counted, and which inputs are accepted. The neural models, the
network and the operating system are inputs to the model.

One module per source concern, all sharing `Common`:

- `Common` (common.dfy): optional values and results, where the error is the
  exception a Python or TypeScript function would raise; JSON documents; and
  the string operations the rest is built from (split, suffix tests,
  lower-casing, zero padding, decimal rendering and parsing).
- `IntermediateStorage` and `JsonNormalize`: the per-session store of
  pipeline artifacts. It has ten fixed steps, atomic writes, envelopes for
  results, configurations and statistics, an append-only log and an error
  log capped at 100 records. `JsonNormalize` is the recursive
  "make it JSON-serialisable" normalisation. The captioning module carries
  a second copy of it, `_make_serializable`, with the same behaviour, so
  the one model covers both.
- `StatusStore`, `ProcessManager` and `ImageBindManager`: the API server's
  status channel. It writes atomically, recovers on read and merges
  shallowly. The server also keeps a registry of worker processes keyed by
  chat id, with a "_query" suffix for queries, and a shared embedder with
  idempotent load and release and counted, guarded encode calls. The
  desktop build's API server, `Vimo-desktop/python_backend/videorag_api.py`,
  repeats the backend's code line for line, so the same members model both.
  The table cites the backend copy. The same code sits 166 lines earlier in
  the desktop copy up to backend line 790, 178 lines earlier in the indexing
  progress callback (858-870), 540 lines earlier in the active-session
  count (1743-1751) and 645 lines earlier in the exit cleanup (1993-2010).
- `ConfigSelection`, `DirectoryScan` and `WebUpload`: how the server picks
  its speech-recognition and embedding configurations, the recursive
  listing of available videos, and the upload checks of the web API.
- `VideoSplit`, `CaptionMerge`, `DesktopCaption`, `AsrEpyc`, `EpycConfig`,
  `VectorStorage` and `VideoRag`: pipeline bookkeeping.
  - `VideoSplit`: segment start times, names and counters.
  - `CaptionMerge` and `DesktopCaption`: merging captions with transcripts
    and parsing `{video}_{index}` ids.
  - `AsrEpyc` and `EpycConfig`: the FIFO Whisper model cache, the batching
    of audio over model instances, and a configuration read once.
  - `VectorStorage`: record and batch construction for the vector stores.
  - `VideoRag`: the skip-if-indexed rule and event order of the desktop
    orchestrator.
- `StageProgress`, `BatchStatus`, `VideoSelector`, `FolderUpload`,
  `ChatStorage`, `ChatHistory`, `FormatUtils` and `ApiClient`: the web
  client's data logic.
- `WinrateTally` and `QuantParse`: the evaluation scripts.
  - `WinrateTally`: counting votes with each question judged in both
    answer orders.
  - `QuantParse`: the validator and bookkeeping of the quantitative-score
    parser.

Where the source mutates state (a class's fields, a dict filled in a loop,
a file map), the model is a Dafny class or a method with a loop. Each such
method is proved against a specification function, and the properties are
proved as lemmas about that function. Pure rules are functions with named
results. Each rule whose code turned out not to do what it evidently
intends appears twice, as written and as intended (see "## Findings").

## Model

A function that only computes a value carries no contract of its own; the lemma about it has the row. For example, `FormatDuration` is stated by `FormatDurationRoundTrip`, `Matches` by `MatchesIgnoresCase`, `FilterJustified` and `JustifiedKept`, `PyInt` by `PyIntReadsNumber`, `ParseSegmentId` by `ParseSegmentIdInverse`, `Fetched` by `FetchSameTwice` and `ErrorRaisedAgain`, and `CheckAsWritten` by `CheckMissesOtherMetrics` and `TiePassesAsWritten`.

| member | source | states |
|---|---|---|
| IntermediateStorage.StepsDistinct | VideoRAG-algorithm/videorag/_storage/intermediate_storage.py:21-32 | STEPS holds ten distinct step names |
| IntermediateStorage.MatchingIndices | VideoRAG-algorithm/videorag/_storage/intermediate_storage.py:70 | the indices listed are exactly the positions of the component, in increasing order |
| IntermediateStorage.ComponentInText | VideoRAG-algorithm/videorag/_storage/intermediate_storage.py:63-70 | a component of the base path occurs in its text, so the text test of line 67 never hides a component match |
| IntermediateStorage.NoMatchingIndex | VideoRAG-algorithm/videorag/_storage/intermediate_storage.py:70-83 | a component that does not occur gives no matching index |
| IntermediateStorage.LastMatchingIndex | VideoRAG-algorithm/videorag/_storage/intermediate_storage.py:72-80 | the last listed index is the last occurrence of the session component |
| IntermediateStorage.SessionPathSpec | VideoRAG-algorithm/videorag/_storage/intermediate_storage.py:63-86 | the session path ends in `chat-{id}`: the base cut after the last such component when there is one, otherwise the base with `chat-{id}` appended |
| IntermediateStorage.SessionPathAppends | VideoRAG-algorithm/videorag/_storage/intermediate_storage.py:81-86 | without a matching component the session directory is appended, also when the id occurs only inside another component |
| IntermediateStorage.SessionPathCuts | VideoRAG-algorithm/videorag/_storage/intermediate_storage.py:72-80 | with a last matching component at i the session path is the base up to and including i |
| IntermediateStorage.SessionPathIdempotent | VideoRAG-algorithm/videorag/_storage/intermediate_storage.py:63-86 | resolving a resolved session path again yields the same path |
| IntermediateStorage.TempPath | VideoRAG-algorithm/videorag/_storage/intermediate_storage.py:129 | the temporary file sits in the target's directory and differs from the target |
| IntermediateStorage.WriteOnceAtomic | VideoRAG-algorithm/videorag/_storage/intermediate_storage.py:120-156 | after one atomic write the target holds the new content or its old content, no temporary file survives and no other file changes |
| IntermediateStorage.CapErrors | VideoRAG-algorithm/videorag/_storage/intermediate_storage.py:425-429 | the capped error log ends with the new record, keeps the latest earlier records in order and has at most 100 records |
| IntermediateStorage.CapErrorsBounded | VideoRAG-algorithm/videorag/_storage/intermediate_storage.py:425-429 | two capped appends in a row keep at most 100 records with the first new record second to last |
| IntermediateStorage.FirstActive | VideoRAG-algorithm/videorag/_storage/intermediate_storage.py:382-386 | the step found is processing or in_progress and no earlier step is; None means no step is |
| IntermediateStorage.CompletedCount | VideoRAG-algorithm/videorag/_storage/intermediate_storage.py:378 | the number of completed steps never exceeds the number of steps |
| IntermediateStorage.CompletedCountSnoc | VideoRAG-algorithm/videorag/_storage/intermediate_storage.py:378 | one more status adds one exactly when it is "completed" |
| IntermediateStorage.FirstActiveSnoc | VideoRAG-algorithm/videorag/_storage/intermediate_storage.py:383-386 | with no earlier active step, one more status is the first active one exactly when it is active |
| IntermediateStorage.FirstActivePrefix | VideoRAG-algorithm/videorag/_storage/intermediate_storage.py:383-386 | once an active step is found, later statuses do not change it (the loop breaks) |
| IntermediateStorage.StepAt | VideoRAG-algorithm/videorag/_storage/intermediate_storage.py:383-385 | the step name reported is the step at the found position |
| IntermediateStorage.StorageManager.constructor | VideoRAG-algorithm/videorag/_storage/intermediate_storage.py:34-112 | the session path is resolved and every directory of the session tree exists; the files found on disk are kept |
| IntermediateStorage.StorageManager.AtomicWrite | VideoRAG-algorithm/videorag/_storage/intermediate_storage.py:120-156 | the new file state is that of one atomic write: temp file, rename, temp file removed on failure |
| IntermediateStorage.StorageManager.WriteEach | VideoRAG-algorithm/videorag/_storage/intermediate_storage.py:246-267 | a run of atomic writes in order, stopping at the first failure |
| IntermediateStorage.StorageManager.SaveStepResult | VideoRAG-algorithm/videorag/_storage/intermediate_storage.py:205-283 | an unknown step raises ValueError and writes nothing; otherwise the result envelope is written, then the per-segment files of the ASR and caption steps, or the embedding arrays of the feature and vector steps, and no other file changes |
| IntermediateStorage.EmbeddingSavesFiles | VideoRAG-algorithm/videorag/_storage/intermediate_storage.py:269-283 | the feature step saves one array per embedding key present (video, then audio), the vector step saves the text embeddings exactly when present, other steps save none, each array under its key's own `.npy` name in the step directory |
| IntermediateStorage.StorageManager.SaveStepConfig | VideoRAG-algorithm/videorag/_storage/intermediate_storage.py:285-293 | an unknown step raises ValueError; otherwise {step, config, timestamp} is written atomically to the step's config file, and after success loading the config gives that document |
| IntermediateStorage.StorageManager.LoadStepConfig | VideoRAG-algorithm/videorag/_storage/intermediate_storage.py:346-359 | an unknown step raises ValueError; a missing or unreadable config file, or one holding JSON null, gives None; otherwise the whole stored document |
| IntermediateStorage.ConfigRoundTrip | VideoRAG-algorithm/videorag/_storage/intermediate_storage.py:285-359 | a config that was saved loads back as an object with exactly step, config and timestamp, holding the step name, the config and the time; a failed save leaves what loads unchanged |
| IntermediateStorage.EnvelopeFields | VideoRAG-algorithm/videorag/_storage/intermediate_storage.py:287-291 | a `{step, config, timestamp}`-shaped envelope is written as an object with exactly its three keys, each holding its field |
| IntermediateStorage.StorageManager.SaveProcessingSummary | VideoRAG-algorithm/videorag/_storage/intermediate_storage.py:397-404 | `{session_id, summary, generated_at}` is written atomically to intermediates/processing_summary.json |
| IntermediateStorage.SummaryRecordsSession | VideoRAG-algorithm/videorag/_storage/intermediate_storage.py:397-404 | the summary write succeeds exactly when the directory exists and the write does not fail; the written summary records the session id, the summary and the time; a failed write leaves it unchanged |
| IntermediateStorage.StorageManager.SaveStepStats | VideoRAG-algorithm/videorag/_storage/intermediate_storage.py:295-303 | an unknown step raises ValueError; otherwise {step, stats, timestamp} is written atomically to the step's stats file |
| IntermediateStorage.StorageManager.AppendToLog | VideoRAG-algorithm/videorag/_storage/intermediate_storage.py:305-329 | a missing or undecodable log reads as []; the log is rewritten with exactly one entry appended after the existing ones |
| IntermediateStorage.StorageManager.SaveErrorLog | VideoRAG-algorithm/videorag/_storage/intermediate_storage.py:406-431 | the error log is rewritten with the new record appended and only the last 100 records kept, in order |
| IntermediateStorage.StorageManager.LoadStepResult | VideoRAG-algorithm/videorag/_storage/intermediate_storage.py:331-344 | an unknown step raises; a missing or unreadable result file, or one holding JSON null, gives None; otherwise the stored document |
| IntermediateStorage.StorageManager.GetStepStatus | VideoRAG-algorithm/videorag/_storage/intermediate_storage.py:361-366 | "not_started" without a readable result or with a null one, otherwise the stored status ("unknown" when absent) |
| IntermediateStorage.StorageManager.GetAllStepsStatus | VideoRAG-algorithm/videorag/_storage/intermediate_storage.py:368-373 | one status per step, in step order |
| IntermediateStorage.StorageManager.GetProcessingProgress | VideoRAG-algorithm/videorag/_storage/intermediate_storage.py:375-395 | completed steps counted out of 10 with the percentage; the current step is the first processing or in_progress step; the statuses in step order and the session id are returned |
| IntermediateStorage.StorageManager.SummarizeSteps | VideoRAG-algorithm/videorag/_storage/intermediate_storage.py:378-386 | the loop's counts equal the completed count and the first active step |
| IntermediateStorage.StorageManager.ListIntermediateFiles | VideoRAG-algorithm/videorag/_storage/intermediate_storage.py:433-448 | a named unknown step raises; a named step lists only that step; no step lists every step with files |
| IntermediateStorage.StorageManager.CleanupTempFiles | VideoRAG-algorithm/videorag/_storage/intermediate_storage.py:454-461 | every session file ending in .tmp is removed and every other file keeps its content |
| IntermediateStorage.WriteAllSnoc | VideoRAG-algorithm/videorag/_storage/intermediate_storage.py:246-253 | one more successful write extends a successful prefix |
| IntermediateStorage.WriteAllStops | VideoRAG-algorithm/videorag/_storage/intermediate_storage.py:246-253 | a failing write ends the run; the later writes never happen |
| IntermediateStorage.SegmentFilesWritten | VideoRAG-algorithm/videorag/_storage/intermediate_storage.py:239-267 | after the segment writes succeed, each segment whose padded id no later key shares has its own segment_{id.zfill(3)}.json holding its record |
| IntermediateStorage.SegmentWritesDistinct | VideoRAG-algorithm/videorag/_storage/intermediate_storage.py:246-267 | no later segment write targets the same file or its temporary file |
| IntermediateStorage.SegmentFilesDistinct | VideoRAG-algorithm/videorag/_storage/intermediate_storage.py:247-261 | different padded ids give different segment files, and none is another's temporary file |
| IntermediateStorage.WriteAllKeeps | VideoRAG-algorithm/videorag/_storage/intermediate_storage.py:120-156 | a file written at position i keeps its content unless a later write targets it or its temporary file |
| JsonNormalize.Normalise | VideoRAG-algorithm/videorag/_storage/intermediate_storage.py:158-203 | the result always serialises, and a value that already serialises is returned unchanged |
| JsonNormalize.NormaliseEntries | VideoRAG-algorithm/videorag/_storage/intermediate_storage.py:181-194 | one entry per entry, with the key stringified and the value normalised, in order |
| JsonNormalize.NormaliseAttrs | VideoRAG-algorithm/videorag/_storage/intermediate_storage.py:189-191 | an object's attributes become one entry each, with the value normalised, in order |
| JsonNormalize.NormaliseItems | VideoRAG-algorithm/videorag/_storage/intermediate_storage.py:195-200 | a list, tuple or other iterable becomes a list with each item normalised, in order |
| JsonNormalize.ItemsToJson | VideoRAG-algorithm/videorag/_storage/intermediate_storage.py:137-170 | the dumped list has one element per item |
| JsonNormalize.EntriesToMap | VideoRAG-algorithm/videorag/_storage/intermediate_storage.py:137-170 | the dumped object's keys are the entries' keys as json.dump writes them |
| JsonNormalize.NormaliseIdempotent | VideoRAG-algorithm/videorag/_storage/intermediate_storage.py:158-203 | normalising twice gives the same value as normalising once |
| JsonNormalize.DictKeysStringified | VideoRAG-algorithm/videorag/_storage/intermediate_storage.py:192-194 | a dict that does not serialise becomes an object whose keys are the stringified keys |
| JsonNormalize.OpaqueBecomesText | VideoRAG-algorithm/videorag/_storage/intermediate_storage.py:201-203 | a value with no other rule becomes its string form |
| JsonNormalize.SequenceKeepsOrder | VideoRAG-algorithm/videorag/_storage/intermediate_storage.py:195-197 | a list keeps its length, and each item is normalised in place |
| StatusStore.TempOf | backend/videorag_api.py:218 | the temporary path differs from the status path |
| StatusStore.StatusFilePath | backend/videorag_api.py:240-244 | the status file is status.json inside the session directory |
| StatusStore.ReadStatus | backend/videorag_api.py:229-238 | a missing or unparsable status file reads as {}; otherwise the stored document |
| StatusStore.WriteStatus | backend/videorag_api.py:216-227 | success leaves the new document readable; failure leaves the old file as it was; no temporary file remains and no other file changes |
| StatusStore.MergeStatus | backend/videorag_api.py:254-258 | the namespace is created when absent and updated field by field, last_updated is set, and every other top-level key is kept |
| StatusStore.StatusDisk.constructor | backend/videorag_api.py:216-261 | the status disk starts with the files given |
| StatusStore.StatusDisk.WriteStatusJson | backend/videorag_api.py:216-227 | the new file state is that of one atomic status write |
| StatusStore.StatusDisk.UpdateSessionStatus | backend/videorag_api.py:246-262 | read, merge and write back; a merge error raises before anything is written |
| StatusStore.UpdateThenRead | backend/videorag_api.py:246-261 | after a successful update a read sees the new fields in the namespace and every field the update did not mention as it was |
| StatusStore.CorruptReadsEmpty | backend/videorag_api.py:229-258 | a corrupt or missing status file is merged exactly like an empty document |
| ImageBindManager.Configured | backend/videorag_api.py:278-288 | initialize records the model path and marks the manager initialized, leaving the loaded flag and usage count alone |
| ImageBindManager.Load | backend/videorag_api.py:290-340 | an already loaded model returns True with nothing changed; without initialization or a model path it raises RuntimeError; otherwise it is loaded exactly when construction, the file check and the weights all succeed |
| ImageBindManager.Release | backend/videorag_api.py:342-366 | afterwards nothing is loaded; releasing an unloaded model changes nothing |
| ImageBindManager.Encode | backend/videorag_api.py:368-396 | encoding without a loaded model raises RuntimeError; with one, the usage count goes up by one and the encoder's result is returned |
| ImageBindManager.CleanedUp | backend/videorag_api.py:409-416 | cleanup releases the model and forgets the initialization, the path and the configuration, keeping the usage count |
| ImageBindManager.InvPreserved | backend/videorag_api.py:264-416 | every operation keeps the manager's flags consistent (loaded implies initialized with a path and an embedder) |
| ImageBindManager.LoadIdempotent | backend/videorag_api.py:290-295 | once a load succeeds, a second load returns True and changes nothing |
| ImageBindManager.ReleaseIdempotent | backend/videorag_api.py:342-347 | releasing twice is the same as releasing once |
| ImageBindManager.CleanupThenLoadRefused | backend/videorag_api.py:297-416 | after cleanup a load raises "not initialized with model path" |
| ImageBindManager.UsageCountsCalls | backend/videorag_api.py:368-387 | n encodes on a loaded model add n to the usage count; on an unloaded one they change nothing |
| ImageBindManager.GlobalImageBindManager.constructor | backend/videorag_api.py:267-276 | a new manager is unconfigured, unloaded and unused |
| ImageBindManager.GlobalImageBindManager.Initialize | backend/videorag_api.py:278-288 | the manager's state becomes the configured state |
| ImageBindManager.GlobalImageBindManager.EnsureImageBindLoaded | backend/videorag_api.py:290-340 | the manager's state and result are those of a load |
| ImageBindManager.GlobalImageBindManager.ReleaseImageBind | backend/videorag_api.py:342-366 | the manager's state becomes the released state |
| ImageBindManager.GlobalImageBindManager.EncodeVideoSegments | backend/videorag_api.py:368-379 | result and state are those of an encode |
| ImageBindManager.GlobalImageBindManager.EncodeStringQuery | backend/videorag_api.py:381-396 | result and state are those of an encode |
| ImageBindManager.GlobalImageBindManager.Cleanup | backend/videorag_api.py:409-416 | the manager's state becomes the cleaned-up state |
| ProcessManager.BasePath | backend/videorag_api.py:519-621 | the base storage path is read from the global configuration; no configuration or no such key is an error |
| ProcessManager.ActiveSession | backend/videorag_api.py:1744-1749 | a record key ending in "_query" is attributed to the chat id before the suffix; any other key is the chat id |
| ProcessManager.IndexAndQueryCountOnce | backend/videorag_api.py:1744-1749 | a chat's indexing key and its query key are attributed to the same chat id |
| ProcessManager.WorkersAreSwept | backend/videorag_api.py:715-727 | a process of another pid whose first command-line word names an index or query worker is killed by the sweep |
| ProcessManager.ProgressFields | backend/videorag_api.py:858-863 | status is "completed" exactly when the step is "Completed" and "processing" otherwise; message and current step are copied |
| ProcessManager.AppendIndexed | backend/videorag_api.py:782-789 | indexed_videos is created when absent and gains the path at its end; last_updated is set and every other key is kept |
| ProcessManager.SessionStatus | backend/videorag_api.py:641-658 | None without a configuration; otherwise the query or indexing namespace of the status file |
| ProcessManager.IndexedVideos | backend/videorag_api.py:660-672 | [] without a configuration; otherwise the status file's indexed_videos, [] when absent |
| ProcessManager.StartReplacesDocument | backend/videorag_api.py:515-533 | starting an indexing run replaces the whole status document, dropping query_status and earlier indexed videos |
| ProcessManager.VideoRagProcessManager.constructor | backend/videorag_api.py:505-507 | no configuration and no running workers |
| ProcessManager.VideoRagProcessManager.SetGlobalConfig | backend/videorag_api.py:509-513 | the configuration is stored and the workers are untouched |
| ProcessManager.VideoRagProcessManager.StartVideoIndexing | backend/videorag_api.py:515-557 | the initial status document is written and, when that succeeds, the worker is recorded under the chat id, overwriting any record there |
| ProcessManager.VideoRagProcessManager.StartQueryProcessing | backend/videorag_api.py:559-595 | the query start is merged into query_status and, when written, the worker is recorded under chat id + "_query" |
| ProcessManager.VideoRagProcessManager.TerminateProcess | backend/videorag_api.py:597-628 | only the key chat id is looked up; it is removed and returned exactly when a record existed; with a configuration, indexing_status becomes "terminated" |
| ProcessManager.VideoRagProcessManager.DeleteSession | backend/videorag_api.py:630-639 | the running record goes exactly as in TerminateProcess; ok holds exactly when termination did not raise: always without a configuration, never when the base path or the status merge fails, and otherwise exactly when writing the merged "terminated" status succeeds, the status file then holding that document |
| ProcessManager.TerminationMarksStatus | backend/videorag_api.py:619-626 | after termination the indexing namespace of the status file says terminated, with its message and step, and keeps its other fields |
| ProcessManager.VideoRagProcessManager.Cleanup | backend/videorag_api.py:686-733 | every orphaned worker process, and no other, is killed, the current process never, and the record table ends empty |
| ProcessManager.VideoRagProcessManager.ActiveSessions | backend/videorag_api.py:1743-1751 | the active sessions are the chat ids the record keys are attributed to, never more than the records |
| ProcessManager.ProgressCallback | backend/videorag_api.py:858-868 | the step's status fields are merged into indexing_status, and the video is recorded when a "One Video Completed" step names it |
| ProcessManager.AddIndexedVideo | backend/videorag_api.py:782-789 | the status file is rewritten with the path appended to indexed_videos |
| ProcessManager.ShutdownHook.constructor | backend/videorag_api.py:1993 | the exit hook has not run yet |
| ProcessManager.ShutdownHook.CleanupOnExit | backend/videorag_api.py:1995-2010 | the first call cleans up the process manager and the ImageBind manager; later calls change nothing |
| ConfigSelection.GetAsrConfig | backend/videorag_api.py:89-127 | API mode exactly when ASR_MODE (stripped, lower-cased) is "api" and ASR_MAX_CONCURRENT parses, with ASR_MODEL (default paraformer-realtime-v2), the DashScope key, the DashScope base URL (with its default) and that concurrency; local mode reads ASR_MODEL and ASR_DEVICE (defaults large-v3 and cpu); any other mode, or a bad concurrency value, falls back to ASR_MODEL on the CPU (large-v3 on the CPU for a bad value) |
| ConfigSelection.LocalIsLower | backend/videorag_api.py:92 | the default mode "local" is unchanged by strip and lower |
| ConfigSelection.AsrDefaultIsLocal | backend/videorag_api.py:92-101 | without ASR_MODE the configuration is local with ASR_MODEL and ASR_DEVICE, large-v3 on the CPU when both are unset |
| ConfigSelection.ProviderConfigShape | backend/videorag_api.py:161-200 | every provider branch gives a non-empty model name and 1024 dimensions exactly for DashScope, 1536 otherwise; an Azure URL selects the Azure function |
| ConfigSelection.EmbeddingConfigShape | backend/videorag_api.py:153-213 | the returned embedding configuration is well shaped for every environment, both as written and as intended |
| ConfigSelection.AzureUrlIntended | backend/videorag_api.py:181-200 | as intended, an Azure URL gives Azure's function, text-embedding-ada-002 when no model is named, and 1536 dimensions |
| ConfigSelection.AzureDefaultModel | backend/videorag_api.py:158-184 | the default model name starts with "text-embedding", so the Azure branch replaces it by text-embedding-ada-002 |
| ConfigSelection.AzureUrlFallsBack | backend/videorag_api.py:181-213 | as written, an Azure URL raises NameError on the undefined azure_openai_embedding and returns the OpenAI fallback |
| ConfigSelection.ClassifyAzure | backend/videorag_api.py:162-181 | a URL without the letter o that contains "azure" misses the OpenAI and DashScope tests and takes the Azure branch |
| ConfigSelection.AzureUrlFacts | backend/videorag_api.py:181 | "https://azure" has no letter o and contains "azure" after lower-casing |
| ConfigSelection.DefaultDimParses | backend/videorag_api.py:159 | the default dimension "1536" parses as an integer |
| ConfigSelection.PyIntReadsNumber | backend/videorag_api.py:159 | `int()` reads back every natural number written in decimal, also with surrounding whitespace |
| ConfigSelection.PyIntReadsDigits | backend/videorag_api.py:108 | a non-empty digit string reads as its decimal value, with or without whitespace around it |
| ConfigSelection.StripPaddedDigits | backend/videorag_api.py:108 | digits with whitespace on both sides strip to the digits |
| ConfigSelection.NegatedDigits | backend/videorag_api.py:159 | a minus sign before digits reads as their negated value |
| ConfigSelection.AzureCounterexample | backend/videorag_api.py:153-213 | with EMBEDDING_BASE_URL "https://azure" the written code embeds with OpenAI's function where Azure's was intended |
| WebUpload.LastDotSplit | Vimo-desktop/python_backend/videorag_web_api.py:50 | rsplit on the last '.' separates the stem from an extension that has no '.' |
| WebUpload.AllowedFileSplit | Vimo-desktop/python_backend/videorag_web_api.py:46-50 | a name is allowed exactly when its lower-cased text after the last '.' is one of the six extensions |
| WebUpload.HttpStatus | Vimo-desktop/python_backend/videorag_web_api.py:84-155 | the validation errors answer 400, and a failed save or start answers 500 |
| WebUpload.CheckUpload | Vimo-desktop/python_backend/videorag_web_api.py:84-109 | the checks run in order (file present, chat id given, file name non-empty, extension allowed), and the upload passes exactly when all hold |
| WebUpload.UploadPathUnderChat | Vimo-desktop/python_backend/videorag_web_api.py:112-119 | a relative chat id puts the file at /app/uploads/<chat_id>/<timestamp>_<name> |
| WebUpload.AbsoluteChatIdLeavesRoot | Vimo-desktop/python_backend/videorag_web_api.py:112-119 | the chat id is not sanitised, so an absolute one puts the file outside /app/uploads |
| WebUpload.UploadResult | Vimo-desktop/python_backend/videorag_web_api.py:81-155 | a failed check answers its error and a failed save answers 500; otherwise the receipt names the saved file and its path, with zero duration, fps and size when probing fails |
| WebUpload.UploadArea.constructor | Vimo-desktop/python_backend/videorag_web_api.py:112 | the upload area starts empty |
| WebUpload.UploadArea.UploadFile | Vimo-desktop/python_backend/videorag_web_api.py:81-155 | the content is stored under the saved path only when the upload succeeds, and nothing changes otherwise |
| WebUpload.CollectVideoPaths | Vimo-desktop/python_backend/videorag_web_api.py:181-198 | an empty list is refused; the first entry with a missing or non-existent path is reported; otherwise every path in order |
| WebUpload.VideoNames | Vimo-desktop/python_backend/videorag_web_api.py:203 | one base name per path, in order |
| WebUpload.UploadVideoWeb | Vimo-desktop/python_backend/videorag_web_api.py:177-223 | an empty list or a missing path answers 400 and changes nothing; with every path present, a missing base path answers 500 and changes nothing; otherwise the initial status is written to the chat's status file, a failed write answers 500 and records no worker, and a successful one records the indexing worker under the chat id and answers with each video's base name and the count |
| DirectoryScan.StrLeTotal | backend/videorag_api.py:1886 | string order is total |
| DirectoryScan.StrLeTrans | backend/videorag_api.py:1886 | string order is transitive |
| DirectoryScan.KeyLeTotal | backend/videorag_api.py:1886 | the sort key order (directories first, then lower-cased name) is total |
| DirectoryScan.KeyLeTrans | backend/videorag_api.py:1886 | the sort key order is transitive |
| DirectoryScan.AppendAbove | backend/videorag_api.py:1886 | an entry not below the last stays sorted when appended |
| DirectoryScan.InsertBelowLast | backend/videorag_api.py:1886 | inserting below the last entry keeps the order and the multiset of entries |
| DirectoryScan.Insert | backend/videorag_api.py:1886 | insertion yields a sorted sequence with one more copy of the entry |
| DirectoryScan.SortEntries | backend/videorag_api.py:1883-1886 | the listing is sorted directories first, then by lower-cased name, and is a permutation of the directory's entries |
| DirectoryScan.ScanDir | backend/videorag_api.py:1878-1946 | the items of a directory are sorted and well formed at every depth: no hidden names, only video files, non-empty directories with their file count and size |
| DirectoryScan.ScanEntries | backend/videorag_api.py:1888-1940 | the loop's items keep the listing's order and none sorts before the first entry |
| DirectoryScan.HeadBeforeRest | backend/videorag_api.py:1888-1937 | the first entry's item followed by the rest's items stays sorted |
| DirectoryScan.StrLeRefl | backend/videorag_api.py:1886 | string order is reflexive |
| DirectoryScan.ScanEntry | backend/videorag_api.py:1889-1940 | hidden and unreadable entries give nothing; a file gives an item exactly when its extension is allowed; a directory gives an item only when it has children |
| VideoSplit.VideoName | VideoRAG-algorithm/videorag/_videoutil/split.py:20 | the video name is the base name cut at its first '.', so it holds neither '.' nor '/' and is a prefix of the base name (all of it when the base name has no '.') |
| VideoSplit.RangeStarts | VideoRAG-algorithm/videorag/_videoutil/split.py:55 | `range(0, total, step)`: element i is i*step and lies below the total, and the range reaches the total |
| VideoSplit.StartTimes | VideoRAG-algorithm/videorag/_videoutil/split.py:54-58 | the start times fail exactly when the segment length is zero (the ValueError of `range`), and a negative length gives no segment at all |
| VideoSplit.Cut | VideoRAG-algorithm/videorag/_videoutil/split.py:63-67 | one segment per start time, each ending at `min(start + length, total)` except the last, which ends at the total |
| VideoSplit.SegmentsTile | VideoRAG-algorithm/videorag/_videoutil/split.py:54-67 | the segments tile the whole duration: the first starts at 0, each ends where the next starts, the last ends at the total and none is empty |
| VideoSplit.SegmentLengths | VideoRAG-algorithm/videorag/_videoutil/split.py:56-67 | every segment but the last is exactly the segment length; the last is at most 4 seconds longer, and longer only when a tail shorter than 5 seconds was folded into it |
| VideoSplit.SegmentNameFields | VideoRAG-algorithm/videorag/_videoutil/split.py:74 | a segment name `{timestamp}-{index}-{start}-{end}` splits on '-' back into its four fields |
| VideoSplit.SplitVideo | VideoRAG-algorithm/videorag/_videoutil/split.py:11-139 | splitting fails when the video cannot be opened or the length is zero; otherwise the name map and the time map are keyed "0".."n-1" by the segment counter in segment order, and an audio file exists for exactly the segments whose extraction did not fail |
| VideoSplit.CutSegments | VideoRAG-algorithm/videorag/_videoutil/split.py:63-94 | after the loop the two dicts hold, under counter i, the i-th segment's name and (start, end), and the audio files are those of the non-failing segments |
| VideoSplit.CountedKeys | VideoRAG-algorithm/videorag/_videoutil/split.py:74-94 | a dict filled under the running counter holds exactly the keys "0" .. "n-1" |
| VideoSplit.CountedValues | VideoRAG-algorithm/videorag/_videoutil/split.py:74-94 | key "i" of such a dict holds the i-th value written |
| VideoSplit.FreshKey | VideoRAG-algorithm/videorag/_videoutil/split.py:74-94 | the counter's next key differs from every earlier key, so no segment overwrites another |
| VideoSplit.AudioFilesMembers | VideoRAG-algorithm/videorag/_videoutil/split.py:78-92 | an audio file `{name}.{format}` is written for a segment exactly when its extraction does not fail |
| VideoSplit.WriteClips | VideoRAG-algorithm/videorag/_videoutil/split.py:168-185 | the clip loop stops at the first index with no timestamp, naming it; otherwise the processed count is the number of clips that did not fail and the written files are exactly theirs |
| VideoSplit.SaveVideoSegments | VideoRAG-algorithm/videorag/_videoutil/split.py:141-214 | saving succeeds iff the video opens and every index has a timestamp; then total is the number of segments, processed counts the clips written and failed is the rest; on failure one message is queued for the parent and RuntimeError is raised |
| CaptionMerge.ContentInjective | VideoRAG-algorithm/videorag/_videoutil/caption.py:317 | the merged content text determines its caption (when it has no newline) and its transcript |
| CaptionMerge.TimeOfSegmentName | VideoRAG-algorithm/videorag/_videoutil/caption.py:311 | the time read back from a segment name the splitter made is "start-end" |
| CaptionMerge.MergeEntry | VideoRAG-algorithm/videorag/_videoutil/caption.py:309-337 | a segment merges iff it has frame times; both records keep its transcript and caption, and a merged one carries the time from its name and the combined content |
| CaptionMerge.MergeSegmentInformation | VideoRAG-algorithm/videorag/_videoutil/caption.py:292-400 | the merged dict is the one built entry by entry over the segments, the success count is the number of merged segments with some text, and successes and failures add up to the number of segments |
| CaptionMerge.MergeEach | VideoRAG-algorithm/videorag/_videoutil/caption.py:307-342 | the merge loop builds one entry per visited index and counts each index once, as a success or a failure |
| CaptionMerge.MergeOnePerSegment | VideoRAG-algorithm/videorag/_videoutil/caption.py:303-400 | the merged dict has exactly the keys of `segment_index2name`, each holding the entry built for it |
| CaptionMerge.MergedEntriesContents | VideoRAG-algorithm/videorag/_videoutil/caption.py:307-337 | after any prefix of indices the merged dict has exactly those keys, each holding its entry |
| CaptionMerge.MergeSuccessIff | VideoRAG-algorithm/videorag/_videoutil/caption.py:320-326 | a segment counts as merged exactly when it has frame times and a non-empty caption or transcript |
| CaptionMerge.StoredCaption | VideoRAG-algorithm/videorag/_videoutil/caption.py:165-203 | a stored caption has no newline; a failed segment stores the failure notice |
| CaptionMerge.SegmentCaption | VideoRAG-algorithm/videorag/_videoutil/caption.py:69-290 | an exception before the loop (saving the configuration, loading the model, opening the video) leaves the dict untouched, writes nothing, queues "Error in segment_caption:\n " with its message and raises RuntimeError; otherwise the dict, the three counters and the records written are those of the segment loop, and an exception escaping the loop or raised after it is queued and turned into RuntimeError the same way |
| CaptionMerge.CaptionsContents | VideoRAG-algorithm/videorag/_videoutil/caption.py:165-203 | captioning puts every segment into the dict with its stored text and leaves every other key unchanged |
| CaptionMerge.AllCaptioned | VideoRAG-algorithm/videorag/_videoutil/caption.py:165-166 | when no captioning raises, every segment counts as successful |
| CaptionMerge.CaptionSegment | VideoRAG-algorithm/videorag/_videoutil/caption.py:134-224 | one turn of the segment loop is the step that puts the caption or the failure notice into the dict, counts a captioned segment as successful and a raised one as failed, writes its record when a storage manager exists, and escapes with the exception of a failing failure record |
| CaptionMerge.CaptionRunStops | VideoRAG-algorithm/videorag/_videoutil/caption.py:216-224 | once the failure record of a segment cannot be written, the loop has ended and later segments change nothing |
| CaptionMerge.RunCounts | VideoRAG-algorithm/videorag/_videoutil/caption.py:163-224 | a loop that runs to the end processes every segment and counts as successful exactly the captioned ones, while successes plus failures exceed the processed count by the segments whose success record could not be written; a loop that raises stops before processing them all |
| CaptionMerge.StoredArtifacts | VideoRAG-algorithm/videorag/_videoutil/caption.py:168-219 | with a storage manager, a loop that runs to the end writes one `segment_{index.zfill(3)}.json` record per segment, in order, flagged successful exactly when the try block went through |
| CaptionMerge.UnstoredRun | VideoRAG-algorithm/videorag/_videoutil/caption.py:72-78 | without a storage manager (no session id, or the manager could not be built) nothing is written, the loop never raises, every segment counts once, and the dict holds each segment's caption or failure notice |
| CaptionMerge.RunResultContents | VideoRAG-algorithm/videorag/_videoutil/caption.py:165-203 | after a loop that runs to the end every segment holds the text its try block ended with and every other key is unchanged |
| CaptionMerge.WriteFailureCountedTwice | VideoRAG-algorithm/videorag/_videoutil/caption.py:165-224 | a captioned segment whose success record cannot be written counts as one success and one failure while it is processed once, and the dict holds the failure notice |
| CaptionMerge.FailureWriteRaises | VideoRAG-algorithm/videorag/_videoutil/caption.py:201-224 | when the failure record cannot be written either, the loop raises with the segment counted as failed but not processed and nothing written |
| CaptionMerge.CaptionArtifactsDistinct | VideoRAG-algorithm/videorag/_videoutil/caption.py:181-218 | distinct segment indices of up to three digits write distinct artifact files |
| CaptionMerge.ParseSegmentIdInverse | VideoRAG-algorithm/videorag/_videoutil/caption.py:405-406 | reading the video name and the index back from `{video}_{index}` gives them back whenever the index has no '_', even when the video name has underscores |
| CaptionMerge.CounterIdsParse | VideoRAG-algorithm/videorag/_videoutil/caption.py:405-406 | ids built from the splitter's counters always parse back |
| CaptionMerge.SegmentTimesOk | VideoRAG-algorithm/videorag/_videoutil/caption.py:405-409 | a segment's time is read exactly when its video is known to both stores, its index is known, its time has two "-" fields and both evaluate; the time is then the two evaluated fields |
| CaptionMerge.UnknownIndexKeyError | VideoRAG-algorithm/videorag/_videoutil/caption.py:405-408 | a known video with an unknown index raises KeyError of the index, not of the whole id |
| CaptionMerge.RetrievedContent | VideoRAG-algorithm/videorag/_videoutil/caption.py:404-426 | one retrieved id gives its caption text, without newlines and with the transcript, exactly when its time can be read, and otherwise the error reading it raised |
| CaptionMerge.RetrievedSegmentCaption | VideoRAG-algorithm/videorag/_videoutil/caption.py:402-429 | re-captioning succeeds iff the time of every retrieved id can be read; the result has exactly the retrieved ids as keys, each holding its caption text; otherwise it fails with the error of the first id whose time cannot be read |
| DesktopCaption.CleanCaption | Vimo-desktop/python_backend/videorag/_videoutil/caption.py:31-45 | a cleaned caption has no newline and only characters of the reply; an empty reply or a raised exception gives ""; a one-line reply without the end-of-text marker is kept as it is |
| DesktopCaption.CleanCaptionKeepsCleanText | Vimo-desktop/python_backend/videorag/_videoutil/caption.py:41 | a reply that is already one clean line is returned verbatim |
| DesktopCaption.SegmentCaptionAsync | Vimo-desktop/python_backend/videorag/_videoutil/caption.py:47-74 | captioning succeeds iff the video is readable and every segment has frame times and a transcript; the result then has exactly the segment indices as keys, each with its cleaned caption; otherwise it is an I/O error or the KeyError of the first segment that lacks them |
| DesktopCaption.FirstNotExtractable | Vimo-desktop/python_backend/videorag/_videoutil/caption.py:52-59 | the gathering stops at the first segment whose frame times or transcript are missing, and every earlier one has both |
| DesktopCaption.CaptionEach | Vimo-desktop/python_backend/videorag/_videoutil/caption.py:64-72 | the result is keyed by exactly the segment indices, each holding the cleaned reply for it |
| DesktopCaption.SharedCaptions.constructor | Vimo-desktop/python_backend/videorag/_videoutil/caption.py:76 | the shared caption dictionary starts empty |
| DesktopCaption.SharedCaptions.SegmentCaption | Vimo-desktop/python_backend/videorag/_videoutil/caption.py:76-86 | on success every new caption is copied into the shared dictionary, overwriting older captions of the same index and keeping the rest; any failure is a RuntimeError that copies nothing |
| DesktopCaption.MergeSegmentInformation | Vimo-desktop/python_backend/videorag/_videoutil/caption.py:88-97 | merging succeeds iff every segment has a caption, a transcript and frame times; the result then has exactly the segment indices as keys, each with its record; otherwise it is the KeyError of the first incomplete index |
| DesktopCaption.RecordReadsBack | Vimo-desktop/python_backend/videorag/_videoutil/caption.py:93-94 | a merged record gives back its "start-end" time and the caption and transcript that went into its content |
| DesktopCaption.RetrievedContent | Vimo-desktop/python_backend/videorag/_videoutil/caption.py:99-129 | an unknown video or index raises KeyError before the guarded block; otherwise the content always carries the transcript, with the cleaned caption when every guarded step succeeds and the fallback text when one fails |
| DesktopCaption.RetrievedFallbackIff | Vimo-desktop/python_backend/videorag/_videoutil/caption.py:105-129 | the content holds the fallback text exactly when re-captioning failed, and always holds the transcript |
| DesktopCaption.RetrievedSegmentCaption | Vimo-desktop/python_backend/videorag/_videoutil/caption.py:131-146 | the result succeeds iff every retrieved id resolves; it is then keyed by exactly the retrieved ids, each with its content; otherwise it is the KeyError of the first id whose transcript cannot be looked up |
| AsrEpyc.CacheKeyInjective | VideoRAG-algorithm/videorag/_videoutil/asr_epyc_optimized.py:34 | two requests share a cache key only when they ask for the same model, device and compute type (for names and devices without '_') |
| AsrEpyc.CachedModelMatches | VideoRAG-algorithm/videorag/_videoutil/asr_epyc_optimized.py:34-38 | a cache hit hands back exactly the model that was asked for |
| AsrEpyc.EvictKeeps | VideoRAG-algorithm/videorag/_videoutil/asr_epyc_optimized.py:40-43 | evicting the first inserted key keeps the insertion order and the cached keys in step |
| AsrEpyc.InsertKeeps | VideoRAG-algorithm/videorag/_videoutil/asr_epyc_optimized.py:46-48 | inserting a new model under its own key keeps the insertion order and the cached keys in step |
| AsrEpyc.ModelCache.constructor | VideoRAG-algorithm/videorag/_videoutil/asr_epyc_optimized.py:27-31 | a new cache is empty, with both counters at zero and the given bound |
| AsrEpyc.ModelCache.GetModel | VideoRAG-algorithm/videorag/_videoutil/asr_epyc_optimized.py:33-49 | a hit counts and returns the cached model and changes nothing else; a miss on a full cache evicts the earliest inserted entry, counts the miss and inserts the loaded model last; a non-positive bound on an empty cache raises StopIteration first; a failed load inserts nothing; the cache never exceeds its bound |
| AsrEpyc.ModelCache.Stats | VideoRAG-algorithm/videorag/_videoutil/asr_epyc_optimized.py:51-59 | the stats report the counters and the number of cached models, and the hit rate is hits over requests, 0 before any request, always between 0 and 1 |
| AsrEpyc.Preload | VideoRAG-algorithm/videorag/_videoutil/asr_epyc_optimized.py:86-89 | preloading n instances of one key on a fresh cache misses once and hits n-1 times, so every instance is the same large-v3 model; it fails only when the bound is not positive or the load fails |
| AsrEpyc.TranscribeFile | VideoRAG-algorithm/videorag/_videoutil/asr_epyc_optimized.py:93-119 | a result answers its own file and index; its text is empty for a missing file or a failed transcription, and otherwise is exactly what the model produced |
| AsrEpyc.Plan | VideoRAG-algorithm/videorag/_videoutil/asr_epyc_optimized.py:153-157 | one batch per chunk of the files, each on a model index below the number of models |
| AsrEpyc.CutBatches | VideoRAG-algorithm/videorag/_videoutil/asr_epyc_optimized.py:153-157 | the batching loop produces the plan: consecutive slices of the batch size, batch k on model k mod the number of models |
| AsrEpyc.CollectedSubmitted | VideoRAG-algorithm/videorag/_videoutil/asr_epyc_optimized.py:171-182 | the results of the batches answer exactly their files, in order, whether a batch succeeds or fails |
| AsrEpyc.CollectedTexts | VideoRAG-algorithm/videorag/_videoutil/asr_epyc_optimized.py:93-181 | every collected text is empty or is what some model instance produced for that file |
| AsrEpyc.PlanCoversFiles | VideoRAG-algorithm/videorag/_videoutil/asr_epyc_optimized.py:145-190 | the results of the whole plan answer every input file exactly once, in input order |
| AsrEpyc.ParallelTranscribe | VideoRAG-algorithm/videorag/_videoutil/asr_epyc_optimized.py:145-190 | no files give no results; otherwise it succeeds iff the batch size and the workers are positive and the number of models is not zero (zero is a ZeroDivisionError); the results answer every file once, in order, each with the empty text or a model instance's output; with a positive number of models they are those of every planned batch, and with a negative one (no instance is loaded) every text is empty |
| AsrEpyc.ProcessBatch | VideoRAG-algorithm/videorag/_videoutil/asr_epyc_optimized.py:121-143 | a batch gives one result per file, each the file's transcription |
| AsrEpyc.FailedBatch | VideoRAG-algorithm/videorag/_videoutil/asr_epyc_optimized.py:176-182 | a failed batch gives the empty text for each of its files, whatever the model |
| AsrEpyc.ChooseAudio | VideoRAG-algorithm/videorag/_videoutil/asr_epyc_optimized.py:237-245 | the selection loop keeps the existing audio files of the segments, in segment order |
| AsrEpyc.ChosenExisting | VideoRAG-algorithm/videorag/_videoutil/asr_epyc_optimized.py:239-243 | every chosen file is the existing audio file of its segment |
| AsrEpyc.ChosenIndices | VideoRAG-algorithm/videorag/_videoutil/asr_epyc_optimized.py:237-245 | the chosen indices are exactly the segments seen so far whose audio exists |
| AsrEpyc.CollectAudioFiles | VideoRAG-algorithm/videorag/_videoutil/asr_epyc_optimized.py:231-245 | the submitted files are existing audio files, and their indices are exactly the segments that have audio |
| AsrEpyc.TranscriptsByIndex | VideoRAG-algorithm/videorag/_videoutil/asr_epyc_optimized.py:258-260 | the transcript dict has exactly the indices of the results as keys, each holding the text of a result for it |
| AsrEpyc.SpeechToText | VideoRAG-algorithm/videorag/_videoutil/asr_epyc_optimized.py:215-272 | the transcripts are keyed by exactly the segments whose audio exists (none gives the empty dict), each empty or what a model instance produced for that segment's audio, and all empty for a negative number of models; an error is possible only when some segment has audio |
| EpycConfig.IntVarReadsEnv | VideoRAG-algorithm/videorag/_videoutil/epyc_config.py:58-60 | an integer setting is `int()` of the variable, or of its default when unset |
| EpycConfig.UseEpycReadsEnv | VideoRAG-algorithm/videorag/_videoutil/epyc_config.py:57 | the optimisation is on exactly when USE_EPYC_OPTIMIZATION, lower-cased, is "true", with default "false" |
| EpycConfig.ReadConfig | VideoRAG-algorithm/videorag/_videoutil/epyc_config.py:56-64 | reading fails exactly when one of the three integers is refused by `int()`, with a ValueError; otherwise the fields are the flag, the three integers, the compute type (default float32) and the two fixed labels |
| EpycConfig.DefaultConfig | VideoRAG-algorithm/videorag/_videoutil/epyc_config.py:56-64 | with nothing set the configuration is 8 models, batches of 32, 64 workers, float32, optimisation off |
| EpycConfig.WrittenSpec | VideoRAG-algorithm/videorag/_videoutil/epyc_config.py:68-77 | writing the thread variables adds exactly them, each keeping its value or becoming "8", and leaves every other variable alone |
| EpycConfig.EpycGlobals.constructor | VideoRAG-algorithm/videorag/_videoutil/epyc_config.py:10-11 | the module starts not configured, with the given environment |
| EpycConfig.EpycGlobals.InitializeOnce | VideoRAG-algorithm/videorag/_videoutil/epyc_config.py:46-82 | after the first success nothing changes; otherwise a refused integer raises before anything is stored, and a success stores the configuration read, writes the thread variables only when the optimisation is on, and marks the module configured |
| EpycConfig.EpycGlobals.SetupEnvironment | VideoRAG-algorithm/videorag/_videoutil/epyc_config.py:20-98 | the first call initialises and later calls change nothing; every call hands out the stored configuration by value |
| EpycConfig.SetupTwice | VideoRAG-algorithm/videorag/_videoutil/epyc_config.py:89-98 | two calls in a row hand out the same configuration, and only the first can write the environment |
| VectorStorage.TextStoreOf | VideoRAG-algorithm/videorag/_storage/vdb_nanovectordb.py:58-73 | a text store is built iff the working directory, llm and its embedding_batch_num are configured (otherwise the KeyError of the first missing one); batches are embedding_batch_num long and the threshold is query_better_than_threshold when configured, the field's value otherwise |
| VectorStorage.VideoStoreOf | VideoRAG-algorithm/videorag/_storage/vdb_nanovectordb.py:118-134 | a segment store is built iff working_dir, video_embedding_batch_num and video_embedding_dim are configured, else a KeyError; top_k is segment_retrieval_top_k, 2 when absent |
| VectorStorage.EmbedAllPointwise | VideoRAG-algorithm/videorag/_storage/vdb_nanovectordb.py:88-95 | when the embedder treats every item on its own, batching is invisible: the concatenated embeddings are the items' own, in item order, for any batch size |
| VectorStorage.EmbedBatches | VideoRAG-algorithm/videorag/_storage/vdb_nanovectordb.py:88-166 | a zero batch size is refused by `range`; a negative one gives no batch, so the concatenation raises; otherwise the result is the batches' embeddings concatenated in order, or the error of the first batch that fails |
| VectorStorage.Attach | VideoRAG-algorithm/videorag/_storage/vdb_nanovectordb.py:96-169 | attaching succeeds iff there are at least as many rows as records (otherwise IndexError); record i then gets row i and keeps its own fields |
| VectorStorage.Record | VideoRAG-algorithm/videorag/_storage/vdb_nanovectordb.py:80-86 | a record holds "__id__" plus exactly the meta fields the value has, with their values; the id is the key unless a meta field "__id__" overrides it |
| VectorStorage.TextRecords | VideoRAG-algorithm/videorag/_storage/vdb_nanovectordb.py:80-86 | one record per key, in dict order |
| VectorStorage.CollectContents | VideoRAG-algorithm/videorag/_storage/vdb_nanovectordb.py:87 | the contents are collected in dict order iff every value has "content" |
| VectorStorage.Upsert | VideoRAG-algorithm/videorag/_storage/vdb_nanovectordb.py:75-99 | empty input inserts nothing; a value without "content" raises KeyError; otherwise each record carries its id and meta fields and record i gets row i of the batch embeddings, with the batching and row-count errors passed on |
| VectorStorage.UpsertPointwise | VideoRAG-algorithm/videorag/_storage/vdb_nanovectordb.py:75-99 | with an embedder that treats each content on its own, every record's vector is the embedding of its own content, whatever the batch size |
| VectorStorage.SegmentRecord | VideoRAG-algorithm/videorag/_storage/vdb_nanovectordb.py:147-151 | a segment record holds exactly its id `{video}_{index}`, the video name and the index |
| VectorStorage.SegmentRecordRetrievable | VideoRAG-algorithm/videorag/_storage/vdb_nanovectordb.py:148 | every stored segment id parses back to its video and index |
| VectorStorage.SegmentRecords | VideoRAG-algorithm/videorag/_storage/vdb_nanovectordb.py:145-151 | one segment record per index, in dict order |
| VectorStorage.SegmentPaths | VideoRAG-algorithm/videorag/_storage/vdb_nanovectordb.py:144-154 | one clip path per index, in dict order, under the video's cache directory |
| VectorStorage.UpsertSegments | VideoRAG-algorithm/videorag/_storage/vdb_nanovectordb.py:136-171 | the embedder is loaded first, so a load failure raises even for no segments; no segments insert nothing; otherwise record i carries the id of index i and gets row i of the encoded clips, with the batching and row-count errors passed on |
| VectorStorage.Hits | VideoRAG-algorithm/videorag/_storage/vdb_nanovectordb.py:109-188 | shaping succeeds iff every hit has "__id__" and "__metrics__" (otherwise KeyError); each hit keeps its fields and gains "id" and "distance" copied from them |
| VectorStorage.Query | VideoRAG-algorithm/videorag/_storage/vdb_nanovectordb.py:101-112 | the query is embedded alone; an embedding error passes through, an empty embedding is an IndexError, otherwise the hits of a search with the store's threshold are shaped |
| VectorStorage.QuerySegments | VideoRAG-algorithm/videorag/_storage/vdb_nanovectordb.py:173-189 | a load or encoding error passes through; otherwise the store's top_k hits are searched with threshold -1, so similarity cuts nothing |
| VideoRag.FirstMissing | Vimo-desktop/python_backend/videorag/videorag.py:135-140 | the first absent setting is named, and there is none exactly when all are present |
| VideoRag.CheckCredentials | Vimo-desktop/python_backend/videorag/videorag.py:131-140 | construction succeeds exactly when all six settings are present, and otherwise fails with the AssertionError of the first absent one |
| VideoRag.EventsOf | Vimo-desktop/python_backend/videorag/videorag.py:323-400 | a video sends only the five per-video events, in stage order, up to the stage that raised |
| VideoRag.Step | Vimo-desktop/python_backend/videorag/videorag.py:311-401 | after an error nothing happens; an already indexed video is skipped; otherwise its path is recorded, its segments are stored iff processing got past visual analysis, nothing stored before changes, and a failing stage becomes the error |
| VideoRag.RunStops | Vimo-desktop/python_backend/videorag/videorag.py:311-401 | once a video has raised, the rest of the list is not looked at |
| VideoRag.RunKeepsStored | Vimo-desktop/python_backend/videorag/videorag.py:313-316 | an indexed video is never indexed again, and nothing stored is dropped or changed |
| VideoRag.RunEvents | Vimo-desktop/python_backend/videorag/videorag.py:323-400 | every event the loop sends is one of the five per-video events |
| VideoRag.RunNoEvents | Vimo-desktop/python_backend/videorag/videorag.py:323-400 | without a callback the loop sends no event |
| VideoRag.NotVideoEvents | Vimo-desktop/python_backend/videorag/videorag.py:404-410 | "Creating Knowledge Graph", "Completed" and "One Video Completed" are not per-video events |
| VideoRag.InsertEventsShape | Vimo-desktop/python_backend/videorag/videorag.py:298-410 | "Completed" is sent iff the insertion succeeds with a callback, and then last, right after "Creating Knowledge Graph"; "One Video Completed" is never sent; nothing is sent without a callback |
| VideoRag.StepIndexes | Vimo-desktop/python_backend/videorag/videorag.py:311-401 | a turn that ends without error started without error and leaves its video indexed |
| VideoRag.RunIndexesAll | Vimo-desktop/python_backend/videorag/videorag.py:311-401 | when no video raises, every video of the list ends up indexed under its name |
| VideoRag.RunAllSkipped | Vimo-desktop/python_backend/videorag/videorag.py:313-316 | a list whose videos are all indexed changes nothing and sends no per-video event |
| VideoRag.InsertAgainSkips | Vimo-desktop/python_backend/videorag/videorag.py:313-316 | inserting the same list again after a run without error changes nothing |
| VideoRag.NewChunks | Vimo-desktop/python_backend/videorag/videorag.py:458-463 | the chunks kept are exactly those not stored yet, with their contents |
| VideoRag.NewChunksIdempotent | Vimo-desktop/python_backend/videorag/videorag.py:458-466 | once the new chunks are stored, the same chunks bring nothing new |
| VideoRag.InsertResult | Vimo-desktop/python_backend/videorag/videorag.py:449-490 | the insertion raises exactly when there are new chunks and the entity extraction raises on them, with that error; a committed graph means success |
| VideoRag.VideoRAG.constructor | Vimo-desktop/python_backend/videorag/videorag.py:131-296 | a new instance starts with empty storages and zero counters |
| VideoRag.VideoRAG.Ainsert | Vimo-desktop/python_backend/videorag/videorag.py:449-490 | no new chunk returns early; otherwise the naive-RAG store gets them when enabled, an extraction error is raised, and the graph and the chunk store are updated only when a graph comes back; `_insert_done` runs every time; the result is InsertResult |
| VideoRag.VideoRAG.IndexVideos | Vimo-desktop/python_backend/videorag/videorag.py:311-401 | the loop leaves the storages and the events exactly as Run describes, stopping at the first video that raises |
| VideoRag.VideoRAG.InsertVideo | Vimo-desktop/python_backend/videorag/videorag.py:298-410 | no list is an empty list; the storages end as Run describes; an error from a video is raised and leaves the chunk stores, the graph and the done counter as they were; otherwise the result is InsertResult of the run's segments, `_insert_done` runs once, the naive-RAG store gets the new chunks when enabled and the graph and chunk store change only when a graph comes back; the events are those of the loop followed by the knowledge-graph and completion events |
| VideoRag.VideoRAG.Aquery | Vimo-desktop/python_backend/videorag/videorag.py:416-447 | the two known modes answer with their query, any other raises ValueError, and `_query_done` runs only after an answer |
| StageProgress.Round | web/src/types/video.ts:149 | `Math.round` gives the integer within half of its argument, halves going up |
| StageProgress.FindIndex | web/src/types/video.ts:136 | the position found holds the key and no earlier one does; none is found exactly when no stage has the key |
| StageProgress.CalculateStageProgress | web/src/types/video.ts:135-150 | the one-pass loop reports the share of the total weight lying strictly before the stage, rounded, and 0 for an unknown stage |
| StageProgress.StageWeightsTotal | web/src/types/video.ts:42-49 | the stage weights sum to 100 |
| StageProgress.WeightBeforeMonotone | web/src/types/video.ts:139-147 | with positive weights, the weight before a stage grows strictly along the table |
| StageProgress.StageKeysDistinct | web/src/types/video.ts:42-49 | no two stages share a key, so each key names one stage |
| StageProgress.FindOwnKey | web/src/types/video.ts:136 | with distinct keys, looking a stage's key up finds that stage |
| StageProgress.StageProgressValues | web/src/types/video.ts:42-150 | the six stages report 0, 5, 20, 50, 75 and 95 percent |
| StageProgress.StageWeightsBefore | web/src/types/video.ts:42-49 | the weight before each stage is 0, 5, 20, 50, 75, 95, and 100 in all |
| StageProgress.StageByKey | web/src/types/video.ts:152-154 | a stage is found iff some stage has the key, and the one found is a stage of the table with that key |
| StageProgress.UnknownStageProgress | web/src/types/video.ts:137-154 | a stage that getStageByKey does not know reports no progress |
| StageProgress.FormatProcessingTimeAsWritten | web/src/types/video.ts:156-168 | under a minute the rounded seconds; under an hour the whole minutes and the rounded remaining seconds, which can reach 60; otherwise whole hours and whole minutes below 60 |
| StageProgress.FormatSixtySeconds | web/src/types/video.ts:159-162 | 119.5 seconds is shown as one minute and 60 seconds |
| StageProgress.FormatProcessingTime | web/src/types/video.ts:156-168 | every band shows a seconds or minutes field below 60, and the fields add up to the rounded duration (to the minute in the hour band) |
| StageProgress.FormatAgreesOnWholeSeconds | web/src/types/video.ts:156-168 | on whole seconds the corrected formatting and the code agree |
| StageProgress.EstimateRemainingTime | web/src/types/video.ts:170-180 | no estimate (0) before a video has completed or when there are none |
| StageProgress.EstimateBounds | web/src/types/video.ts:170-180 | the estimate is never negative for sane counts, and 0 once every video has completed |
| StageProgress.SuccessRate | web/src/types/video.ts:182-186 | the rate is a percentage between 0 and 100, 0 with nothing finished or nothing completed, 100 when nothing failed |
| StageProgress.SuccessRateMonotone | web/src/types/video.ts:182-186 | more completed videos, with the failures fixed, never lower the rate |
| BatchStatus.CountsFit | web/src/hooks/useBatchProcessingStatus.ts:222-244 | the completed and failed videos together never outnumber the videos |
| BatchStatus.RatioPercentAsWritten | web/src/hooks/useBatchProcessingStatus.ts:80 | the percentage is undefined (NaN) exactly when the total is zero |
| BatchStatus.EmptyBatchProgressNaN | web/src/hooks/useBatchProcessingStatus.ts:80 | a batch of no videos with none completed reports NaN progress |
| BatchStatus.RatioPercent | web/src/hooks/useBatchProcessingStatus.ts:224-247 | 0 for no videos, otherwise the code's rounded percentage; between 0 and 100 for sane counts and 100 when all completed |
| BatchStatus.MappedProgress | web/src/hooks/useBatchProcessingStatus.ts:80 | the progress of a report is 0 for no videos, the code's unguarded rounded percentage for every other total, a negative one included, and so the guarded percentage for a positive total |
| BatchStatus.NegativeTotalProgress | web/src/hooks/useBatchProcessingStatus.ts:80 | one indexed video against a total driven to -1 reports -100% |
| BatchStatus.RetryVideo | web/src/hooks/useBatchProcessingStatus.ts:200-215 | an unknown id changes nothing; otherwise only the videos with that id change, back to pending, and nothing but the videos changes |
| BatchStatus.RetryCounts | web/src/hooks/useBatchProcessingStatus.ts:210 | a retried video is pending, has no error, and its retry count grows by one from 0 when it had none |
| BatchStatus.Without | web/src/hooks/useBatchProcessingStatus.ts:220 | the kept videos are exactly those without the id; removing a present id shortens the list, an absent one keeps it |
| BatchStatus.RemoveVideo | web/src/hooks/useBatchProcessingStatus.ts:218-235 | the video is dropped, the total is one less, the counters are recounted from the remaining videos and the progress is 0 for no videos, otherwise their rounded percentage; nothing else changes |
| BatchStatus.RemoveUnknownDrifts | web/src/hooks/useBatchProcessingStatus.ts:220-221 | removing an id that is not in the list still lowers the total by one |
| BatchStatus.UpdateVideos | web/src/hooks/useBatchProcessingStatus.ts:238-249 | the batch takes the new videos, their count as total, their completed and failed counts and the matching progress; nothing else changes |
| BatchStatus.UpdateVideosConsistent | web/src/hooks/useBatchProcessingStatus.ts:238-249 | after an update the counters fit the total, and no videos means no progress |
| BatchStatus.ApplyDetail | web/src/hooks/useBatchProcessingStatus.ts:60-75 | a reported video takes the reported status, stage and error, the stage's progress (0 without a stage), and the reported times when non-empty; its id, name and retry count stay |
| BatchStatus.MapBackendStatus | web/src/hooks/useBatchProcessingStatus.ts:51-100 | completed is the number of indexed videos, failed the number of error details; each video takes its detail when reported and is otherwise kept; the status, current video and end time follow the report; progress is MappedProgress of the indexed count and the total, also for a zero or negative total |
| BatchStatus.UnmentionedVideosKept | web/src/hooks/useBatchProcessingStatus.ts:60-77 | a report without details for any listed video leaves the videos as they were |
| BatchStatus.FindById | web/src/hooks/useBatchProcessingStatus.ts:127-201 | a video found has the id and is in the list; none is found exactly when no video has the id |
| BatchStatus.NewlyCompleted | web/src/hooks/useBatchProcessingStatus.ts:125-128 | the newly completed videos are exactly the completed ones whose earlier version (by id) was missing or not completed |
| BatchStatus.FetchEvents | web/src/hooks/useBatchProcessingStatus.ts:125-143 | the batch-completed callback fires exactly on the transition into "completed", and the error callback exactly when the report is an error with a non-empty message |
| BatchStatus.ErrorRaisedAgain | web/src/hooks/useBatchProcessingStatus.ts:115-143 | a report that differs from the last one only in its message counts as changed: it is remembered and, being an error report, raises its error again |
| BatchStatus.BatchCompletedOnce | web/src/hooks/useBatchProcessingStatus.ts:136-138 | once the batch is completed, a later report cannot fire its completion again |
| BatchStatus.BatchMonitor.constructor | web/src/hooks/useBatchProcessingStatus.ts:36-48 | the hook starts processing with the given videos and total, counters at zero, no report seen, no error and no polling |
| BatchStatus.BatchMonitor.FetchStatus | web/src/hooks/useBatchProcessingStatus.ts:103-157 | nothing happens when disabled or without a chat id; a failed request records and raises its message; an unsuccessful report, or one equal in every field (message, step and counts included) to the last one, is ignored; otherwise it is remembered, folded into the state and its callbacks are raised |
| BatchStatus.BatchMonitor.StopPolling | web/src/hooks/useBatchProcessingStatus.ts:173-178 | polling stops and nothing else changes |
| BatchStatus.BatchMonitor.StartPolling | web/src/hooks/useBatchProcessingStatus.ts:160-170 | one fetch happens at once, then polling is on |
| BatchStatus.BatchMonitor.PauseProcessing | web/src/hooks/useBatchProcessingStatus.ts:188-191 | the batch is paused and polling stops; the last report and the error are kept |
| BatchStatus.BatchMonitor.ResumeProcessing | web/src/hooks/useBatchProcessingStatus.ts:194-197 | the batch is processing again, one fetch happens and polling is on |
| BatchStatus.BatchMonitor.InitializeProcessing | web/src/hooks/useBatchProcessingStatus.ts:252-265 | a fresh batch of the videos starts now with zero counters, then one fetch happens and polling is on |
| BatchStatus.FetchSameTwice | web/src/hooks/useBatchProcessingStatus.ts:116-119 | fetching the same report twice raises nothing the second time |
| VideoSelector.PathsInSnoc | web/src/components/VideoSelector.tsx:142-150 | the file paths of a list followed by one more node are the list's paths followed by that node's |
| VideoSelector.FileChildInPaths | web/src/components/VideoSelector.tsx:101-114 | every file child's path is among the collected paths |
| VideoSelector.CollectPaths | web/src/components/VideoSelector.tsx:104-110 | the recursive walk appends exactly the node's file paths, depth first, in order |
| VideoSelector.CollectPathsIn | web/src/components/VideoSelector.tsx:108-150 | the walk over a list appends exactly the list's file paths, in order |
| VideoSelector.GetAllChildFilePaths | web/src/components/VideoSelector.tsx:101-114 | the result is every file path under the node, depth first, in order |
| VideoSelector.FileChildren | web/src/components/VideoSelector.tsx:90-96 | the file children are exactly the node's children of file type |
| VideoSelector.SelectedCount | web/src/components/VideoSelector.tsx:97 | the selected count never exceeds the number of file children |
| VideoSelector.CountAll | web/src/components/VideoSelector.tsx:91-97 | the count is all of them exactly when every file is selected, and 0 exactly when none is |
| VideoSelector.MarksAgree | web/src/components/VideoSelector.tsx:88-99 | a directory with children is fully selected exactly when all its file children are, partially selected never together with fully, and one with only directories as children counts as fully selected |
| VideoSelector.ChildlessUnmarked | web/src/components/VideoSelector.tsx:89-95 | a directory without children is neither fully nor partially selected |
| VideoSelector.SizeInSnoc | web/src/components/VideoSelector.tsx:123-131 | the size of a list followed by one more node adds that node's size |
| VideoSelector.NothingSelectedSize | web/src/components/VideoSelector.tsx:120-138 | with nothing selected the total size is 0 |
| VideoSelector.CollectSize | web/src/components/VideoSelector.tsx:123-131 | the walk adds the sizes of the selected files (0 when missing), descending into other nodes |
| VideoSelector.UpdateTree | web/src/components/VideoSelector.tsx:49-58 | the tree keeps its shape, names and paths, and the node with the path flips its expanded flag |
| VideoSelector.ToggleTwice | web/src/components/VideoSelector.tsx:48-61 | expanding the same path twice gives the tree back |
| VideoSelector.ToggleItemTwice | web/src/components/VideoSelector.tsx:49-57 | toggling one node twice gives it back |
| VideoSelector.FilterItems | web/src/components/VideoSelector.tsx:281-292 | the filtered list is never longer than the list |
| VideoSelector.Pruned | web/src/components/VideoSelector.tsx:285-286 | a pruned node keeps its name, path and kind |
| VideoSelector.FilterJustified | web/src/components/VideoSelector.tsx:281-292 | every node the search keeps matches the query or keeps a descendant that does |
| VideoSelector.JustifiedKept | web/src/components/VideoSelector.tsx:281-292 | conversely, every node whose name contains the query, or that has a descendant whose name does, is kept, with its children filtered the same way |
| VideoSelector.MatchesIgnoresCase | web/src/components/VideoSelector.tsx:283 | both sides are lower-cased, so lower-casing the query first changes no match, and the empty query matches every name |
| VideoSelector.FilteredTreeAsWritten | web/src/components/VideoSelector.tsx:278-295 | a blank query shows the tree; otherwise the filtered list is shown and every top-level node of the tree itself has its children replaced by the filtered ones |
| VideoSelector.SearchLosesChildren | web/src/components/VideoSelector.tsx:285-294 | after a search that matches nothing, clearing the search no longer shows the files of a directory |
| VideoSelector.FilteredTree | web/src/components/VideoSelector.tsx:278-295 | a blank query shows the tree; otherwise a top-level node is shown exactly when it matches the query or keeps a matching descendant, never more than the tree, and the tree is left as it was |
| VideoSelector.ToggleAll | web/src/components/VideoSelector.tsx:71-74 | all the given paths are removed, or all are added |
| VideoSelector.Selector.constructor | web/src/components/VideoSelector.tsx:19-23 | the selector starts with the tree and nothing selected |
| VideoSelector.Selector.ToggleSelection | web/src/components/VideoSelector.tsx:63-86 | a file's path flips membership; a fully selected directory loses all its file paths, any other directory gains them; the tree does not change |
| VideoSelector.Selector.SelectAll | web/src/components/VideoSelector.tsx:140-153 | the selection becomes exactly the file paths of the whole tree |
| VideoSelector.Selector.DeselectAll | web/src/components/VideoSelector.tsx:155-157 | the selection becomes empty |
| VideoSelector.Selector.ToggleExpanded | web/src/components/VideoSelector.tsx:48-61 | the tree becomes the toggled tree and the selection stays |
| VideoSelector.Selector.TotalSelectedSize | web/src/components/VideoSelector.tsx:120-138 | the byte total is the size of the selected files in the tree |
| VideoSelector.Selector.HandleSubmit | web/src/components/VideoSelector.tsx:159-187 | nothing is sent with an empty selection; otherwise the selection is sent (as a set), and only a successful reply clears it |
| VideoSelector.SelectDirectory | web/src/components/VideoSelector.tsx:63-92 | selecting a directory with children that is not fully selected makes it fully selected |
| VideoSelector.DeselectDirectory | web/src/components/VideoSelector.tsx:63-99 | deselecting a fully selected directory leaves none of its file children selected |
| VideoSelector.UpdateItem | web/src/components/VideoSelector.tsx:48-61 | toggling flips the expanded flag of the node with that path and keeps every node's path and name |
| FolderUpload.ExtensionAfterLastDot | web/src/components/FolderUpload.tsx:55-58 | a file's extension is the lower-cased text after its last dot, or the whole lower-cased name when it has no dot, always with a leading dot |
| FolderUpload.VideoFiles | web/src/components/FolderUpload.tsx:159-165 | the selection keeps exactly the accepted video files, one entry per video file, each carrying its own name as path and relative path |
| FolderUpload.WithPaths | web/src/components/FolderUpload.tsx:161-165 | every kept file is wrapped once, in order, with its name as its path and relative path |
| FolderUpload.HandleFileSelect | web/src/components/FolderUpload.tsx:149-200 | a disabled picker does nothing; otherwise an over-limit total is refused first, with the total and the limit, then an empty selection; an accepted summary lists the video files, counts every selected file, the skipped ones and no directory, and stays within the limit |
| FolderUpload.SelectionAddsUp | web/src/components/FolderUpload.tsx:169-186 | in an accepted selection the video count and the skipped count add up to the files selected, and the skipped ones are exactly the non-video files |
| FolderUpload.HandleDrop | web/src/components/FolderUpload.tsx:215-251 | a disabled picker or an empty drop does nothing; otherwise no videos is refused first, then an over-limit total, whose error names only the limit; an accepted drop reports the found files, one directory and nothing skipped |
| FolderUpload.ChecksInOppositeOrder | web/src/components/FolderUpload.tsx:172-238 | a selection checks the size before the emptiness and a drop the other way round, so the same empty, over-limit input draws different errors |
| ChatStorage.StorageKey | web/src/utils/chatStorage.ts:28-32 | a chat's key is the fixed prefix followed by the chat id, from which the id can be read back |
| ChatStorage.StorageKeyInjective | web/src/utils/chatStorage.ts:30-32 | two chats share a key only when they are the same chat |
| ChatStorage.EmptySession | web/src/utils/chatStorage.ts:108-120 | a fresh session is titled "New Chat", has nothing analysed, no messages, videos or last message, a video count of zero, and is created and updated now |
| ChatStorage.Freeze | web/src/utils/chatStorage.ts:70-74 | serialising writes every date as text and leaves text as it is |
| ChatStorage.Serialize | web/src/utils/chatStorage.ts:65-74 | the saved form keeps every field but the dates, writes both session dates and every message timestamp as text, and keeps the messages one for one |
| ChatStorage.Revive | web/src/utils/chatStorage.ts:48-53 | on load a non-empty date text becomes a date; a date or an empty text is left alone |
| ChatStorage.LoadFrom | web/src/utils/chatStorage.ts:37-60 | a missing slot or unparsable text loads as a fresh empty session; a stored session loads with its two dates read back and nothing else changed |
| ChatStorage.ChatIds | web/src/utils/chatStorage.ts:99-103 | the listed ids are exactly those whose key is stored |
| ChatStorage.ChatSessionStorage.constructor | web/src/utils/chatStorage.ts:27-124 | the store starts over the given storage map |
| ChatStorage.ChatSessionStorage.Load | web/src/utils/chatStorage.ts:37-60 | loading reads the chat's slot as the load specification says and changes nothing |
| ChatStorage.ChatSessionStorage.Save | web/src/utils/chatStorage.ts:65-80 | a save writes the serialised session under the chat's key and reports success, or reports the storage's error and leaves the storage as it was |
| ChatStorage.ChatSessionStorage.Delete | web/src/utils/chatStorage.ts:85-94 | a delete removes exactly the chat's key and reports success, or reports the error and leaves the storage as it was |
| ChatStorage.ChatSessionStorage.GetAllChatIds | web/src/utils/chatStorage.ts:99-103 | the ids listed are exactly the chats with a stored key |
| ChatStorage.LoadAfterSave | web/src/utils/chatStorage.ts:48-74 | saving a session whose dates are dates and loading it gives the same session back, with only the message timestamps left as text |
| ChatStorage.LoadAfterDelete | web/src/utils/chatStorage.ts:37-103 | after a delete the chat loads as a fresh empty session and is no longer listed |
| ChatStorage.ChatIdsAfterSave | web/src/utils/chatStorage.ts:74-103 | after a save the listed ids are the old ones plus the saved chat |
| ChatStorage.SaveIsolated | web/src/utils/chatStorage.ts:30-74 | saving one chat does not change how any other chat loads |
| ChatHistory.Apply | web/src/hooks/useChatHistory.ts:151-168 | an update overrides exactly the fields it sets and leaves the others; an empty update changes nothing |
| ChatHistory.PatchById | web/src/hooks/useChatHistory.ts:150-170 | the messages with the given id are updated and every other message is kept, in place and in order |
| ChatHistory.Display | web/src/hooks/useChatHistory.ts:50-61 | the list shown holds exactly the session's ordinary messages, with no progress or analysis message, every timestamp a date, and nothing else |
| ChatHistory.Preview | web/src/hooks/useChatHistory.ts:108 | a session's last-message preview is the content itself up to 50 characters, else its first 50 characters followed by "..." |
| ChatHistory.Categorized | web/src/hooks/useChatHistory.ts:97-101 | a message with a category keeps it; one without becomes a user query when sent by the user and an assistant response otherwise |
| ChatHistory.WithMessage | web/src/hooks/useChatHistory.ts:103-112 | adding a message appends it, categorised, to the session, sets the preview and update time, and sets the video count from the message's videos or else keeps the session's (zero when absent); nothing else changes |
| ChatHistory.ChatHistoryHook.constructor | web/src/hooks/useChatHistory.ts:25-29 | the hook starts with no messages, no session and no error |
| ChatHistory.ChatHistoryHook.LoadHistory | web/src/hooks/useChatHistory.ts:34-74 | an empty or "new" id clears the list and the session; otherwise the stored session, or a fresh one, becomes the session, its ordinary messages the list, and the error is cleared |
| ChatHistory.ChatHistoryHook.CurrentSession | web/src/hooks/useChatHistory.ts:91-147 | edits start from the session held, or else from the stored one |
| ChatHistory.ChatHistoryHook.AddMessage | web/src/hooks/useChatHistory.ts:86-134 | for an active chat the session with the message added is saved; it succeeds exactly when the storage accepts, and then keeps that session and shows the message if it is ordinary; on a refusal nothing changes but the recorded error; an inactive chat changes nothing |
| ChatHistory.ChatHistoryHook.UpdateMessage | web/src/hooks/useChatHistory.ts:139-182 | for an active chat the session with that message patched and a new update time is saved; on success both the session and the shown list are patched and the error is kept; on a refusal only the error changes |
| ChatHistory.ChatHistoryHook.SaveSession | web/src/hooks/useChatHistory.ts:187-203 | the session held is saved as it is; without a session or for an inactive chat nothing happens; a success keeps the error as it was and a refusal records its error |
| ChatHistory.ChatHistoryHook.ClearMessages | web/src/hooks/useChatHistory.ts:208-226 | clearing deletes the stored session and, on success, empties the list and drops the session and keeps the error; a refusal records the error and keeps the state |
| ChatHistory.AddedMessageReloads | web/src/hooks/useChatHistory.ts:50-117 | after an ordinary message is added and saved, loading the chat again shows that message last |
| ChatHistory.DisplayAppend | web/src/hooks/useChatHistory.ts:51-59 | showing a list with one more ordinary message shows the old list followed by that message |
| ChatHistory.PatchUnknownId | web/src/hooks/useChatHistory.ts:150-152 | updating an id that no message has leaves the messages as they were |
| ApiClient.ApiPort | web/src/services/api.ts:17 | the API port is VITE_API_PORT when that is set and non-empty, else 64451, and is never empty |
| ApiClient.BaseUrlChoice | web/src/services/api.ts:4-31 | a set VITE_API_URL wins whatever the build and host; otherwise a production build uses relative URLs; otherwise the URL is http on the API port, on the page's own host exactly when that is a dotted-quad address other than 127.0.0.1, and on localhost in every other case |
| ApiClient.LocalhostNotDottedQuad | web/src/services/api.ts:20-25 | the name localhost is not taken for an address |
| ApiClient.DottedQuadIsFourNumbers | web/src/services/api.ts:25 | four non-empty digit runs joined by dots always pass the address test |
| ApiClient.DottedQuadParts | web/src/services/api.ts:25 | every host that passes the address test is four non-empty digit runs joined by dots |
| ApiClient.AnyNumbersKept | web/src/services/api.ts:24-27 | in development any four numbers joined by dots are kept as the host, with no check that they form a valid address |
| ApiClient.UploadVideosWebBody | web/src/services/api.ts:218-221 | the upload body has the single key uploaded_files, holding one object per selected path, in order, each with just that file_path |
| ApiClient.UploadUrlNamesChat | web/src/services/api.ts:219 | the upload URL carries the chat id between /api/sessions/ and /videos/upload-web, so different chats get different URLs |
| ApiClient.UploadBodyReadBack | web/src/services/api.ts:218-221 | the server reads back from the client's upload body exactly the selected paths in order, and accepts the body exactly when the selection is non-empty and every path is a non-empty existing file |
| ApiClient.SessionStatusDefault | web/src/services/api.ts:224-225 | the status query defaults to the indexing status, and the two kinds give different URLs that end in their own type |
| FormatUtils.JsRem | web/src/lib/utils.ts:10-11 | the page's remainder by a positive divisor keeps the dividend's sign and stays below the divisor in size |
| FormatUtils.PartsOfNonneg | web/src/lib/utils.ts:9-11 | for a non-negative duration the hours, minutes and seconds are the floored duration split into hours, minutes below 60 and seconds below 60, and they add back up to it |
| FormatUtils.PadStart | web/src/lib/utils.ts:14-16 | padding a field on the left reaches the requested width, never shortens it, and ends with the original text |
| FormatUtils.Pad2Digits | web/src/lib/utils.ts:14-16 | a minute or second field below 100 is written as exactly two digits that read back as that number |
| FormatUtils.ClockFieldsReadBack | web/src/lib/utils.ts:13-16 | in-range clock fields contain no colon, every field after the first has two digits, and together they read back as the duration's seconds |
| FormatUtils.ClockTextSplits | web/src/lib/utils.ts:14-16 | the rendered clock text splits at its colons into exactly its fields |
| FormatUtils.FormatDurationRoundTrip | web/src/lib/utils.ts:8-17 | a non-negative duration renders as m:ss below an hour and h:mm:ss from an hour on, with two-digit later fields, and the text reads back as the duration's whole seconds |
| FormatUtils.ValidateVideoFileLimits | web/src/lib/utils.ts:33-38 | a file of one of the five accepted types passes exactly up to and including 2 GiB; a file of any other type never passes |
| WinrateTally.KeysMatchUpload | VideoRAG-algorithm/reproduce/winrate_comparison/batch_winrate_eval_upload.py:94-141 | the two judgements the tally looks up for a question are exactly the requests the upload script wrote for it, in the original and the reversed order, and the two keys differ |
| WinrateTally.KeysEndApart | VideoRAG-algorithm/reproduce/winrate_comparison/batch_winrate_eval_calculate.py:57-58 | the original-order and reversed-order keys of one question never coincide |
| WinrateTally.MentionsOneIsIn | VideoRAG-algorithm/reproduce/winrate_comparison/batch_winrate_eval_calculate.py:62-68 | the verdict scan answers whether the verdict contains the character '1' |
| WinrateTally.PairVotes | VideoRAG-algorithm/reproduce/winrate_comparison/batch_winrate_eval_calculate.py:61-71 | every metric gets exactly two votes from each question of each result file |
| WinrateTally.PairVotesFollowVerdicts | VideoRAG-algorithm/reproduce/winrate_comparison/batch_winrate_eval_calculate.py:61-71 | with valid verdicts the first system gets one vote for each order in which the judge preferred its answer, and the second system the rest |
| WinrateTally.ConsistentJudgeGivesBothVotes | VideoRAG-algorithm/reproduce/winrate_comparison/batch_winrate_eval_calculate.py:61-71 | a judge that picks the same system in both orders gives that system both votes |
| WinrateTally.PositionBiasSplitsVotes | VideoRAG-algorithm/reproduce/winrate_comparison/batch_winrate_eval_calculate.py:61-71 | a judge that always picks the same position gives each system one vote, so answer position cancels out |
| WinrateTally.VerdictMentionsOne | VideoRAG-algorithm/reproduce/winrate_comparison/batch_winrate_eval_calculate.py:59-62 | of the two valid verdicts exactly "Answer 1" contains '1' |
| WinrateTally.CheckMissesOtherMetrics | VideoRAG-algorithm/reproduce/winrate_comparison/batch_winrate_eval_calculate.py:27-59 | the check as written tests only the last metric's original-order verdict, so a judgement whose first metric says "Tie" passes it and that verdict is counted for the second system |
| WinrateTally.CheckError | VideoRAG-algorithm/reproduce/winrate_comparison/batch_winrate_eval_calculate.py:57-71 | as written a failed check raises KeyError "Overall Winner" for a missing last metric, AssertionError for its invalid verdict, and otherwise the KeyError of a metric one of the two judgements lacks; the intended check raises AssertionError |
| WinrateTally.IntendedPassesAsWritten | VideoRAG-algorithm/reproduce/winrate_comparison/batch_winrate_eval_calculate.py:59-71 | a question the intended check accepts also passes the script's check and both metric loops |
| WinrateTally.ValidVotesFollowJudge | VideoRAG-algorithm/reproduce/winrate_comparison/batch_winrate_eval_calculate.py:59-71 | once every metric's verdict is valid in both orders, each metric's votes for the first system are its original-order "Answer 1" plus its reversed-order "Answer 2" |
| WinrateTally.OrderVotesAt | VideoRAG-algorithm/reproduce/winrate_comparison/batch_winrate_eval_calculate.py:61-65 | after the metric loop each metric's tally holds its own vote once per time it was visited |
| WinrateTally.OrderVectorAt | VideoRAG-algorithm/reproduce/winrate_comparison/batch_winrate_eval_calculate.py:61-71 | one pass over the six metrics gives each metric exactly its own verdict's vote |
| WinrateTally.MetricsListed | VideoRAG-algorithm/reproduce/winrate_comparison/batch_winrate_eval_calculate.py:9 | the six metrics are distinct and every metric is among them |
| WinrateTally.PairVectorAt | VideoRAG-algorithm/reproduce/winrate_comparison/batch_winrate_eval_calculate.py:55-71 | a question's two metric loops give each metric its two votes and every metric exactly two |
| WinrateTally.QueriesVotesTotal | VideoRAG-algorithm/reproduce/winrate_comparison/batch_winrate_eval_calculate.py:55-71 | the questions of a category in one result file give every metric two votes per question |
| WinrateTally.FilesVotesTotal | VideoRAG-algorithm/reproduce/winrate_comparison/batch_winrate_eval_calculate.py:50-71 | a category gets two votes per metric for each of its questions in each result file |
| WinrateTally.CatsVotesTotal | VideoRAG-algorithm/reproduce/winrate_comparison/batch_winrate_eval_calculate.py:42-71 | overall every metric gets two votes per question per result file, the total each percentage divides by |
| WinrateTally.RoundsIsProduct | VideoRAG-algorithm/reproduce/winrate_comparison/batch_winrate_eval_calculate.py:50 | adding a per-file count once per result file is multiplying it by the number of files |
| WinrateTally.DomainsAddUp | VideoRAG-algorithm/reproduce/winrate_comparison/batch_winrate_eval_calculate.py:30-65 | when every category's type is a listed domain, the three domain tallies add up to the overall tally |
| WinrateTally.FindDomainSound | VideoRAG-algorithm/reproduce/winrate_comparison/batch_winrate_eval_calculate.py:21-64 | a category's domain row is found only under that domain's own name |
| WinrateTally.FindDomainName | VideoRAG-algorithm/reproduce/winrate_comparison/batch_winrate_eval_calculate.py:21-39 | each of lecture, documentary and entertainment finds its own row |
| WinrateTally.AddedNothing | VideoRAG-algorithm/reproduce/winrate_comparison/batch_winrate_eval_calculate.py:26-39 | adding no votes leaves the tallies as they were |
| WinrateTally.AddedTwice | VideoRAG-algorithm/reproduce/winrate_comparison/batch_winrate_eval_calculate.py:63-71 | adding two batches of votes one after the other adds their sum |
| WinrateTally.CountOrder | VideoRAG-algorithm/reproduce/winrate_comparison/batch_winrate_eval_calculate.py:61-71 | one metric loop adds the judgement's vote vector for that order to the overall tally and to the domain's row |
| WinrateTally.CountPair | VideoRAG-algorithm/reproduce/winrate_comparison/batch_winrate_eval_calculate.py:60-71 | the original-order then the reversed-order loop add the question's two-order vector to both tallies |
| WinrateTally.CountQuestion | VideoRAG-algorithm/reproduce/winrate_comparison/batch_winrate_eval_calculate.py:56-71 | one question fails exactly when a judgement is missing, the judgements fail the chosen check (as written: the last metric's original-order verdict is valid and every metric is present in both; intended: every verdict of both orders is valid) or the domain is not listed, and the error is the first one the script meets (`QuestionError`); otherwise its votes are added to the overall tally and to its domain's row |
| WinrateTally.PairError | VideoRAG-algorithm/reproduce/winrate_comparison/batch_winrate_eval_calculate.py:59-64 | an unlisted domain is raised once the script reaches the first domain lookup; otherwise the check's error, which also means the judgements fail the check |
| WinrateTally.QuestionError | VideoRAG-algorithm/reproduce/winrate_comparison/batch_winrate_eval_calculate.py:57-64 | a failing question raises a KeyError or an AssertionError: the missing original, then the missing reversed judgement, then `PairError` |
| WinrateTally.UnlistedDomainRaisedFirst | VideoRAG-algorithm/reproduce/winrate_comparison/batch_winrate_eval_calculate.py:59-64 | as written, with the leftover check passing and the first metric present, an unlisted domain is raised whatever other metric is missing; under the intended check the domain's KeyError comes exactly when every verdict is valid |
| WinrateTally.UnlistedDomainBeforeMissingMetric | VideoRAG-algorithm/reproduce/winrate_comparison/batch_winrate_eval_calculate.py:59-71 | a "sports" category whose reversed judgement lacks "Depth" raises KeyError("sports") |
| WinrateTally.CountQueries | VideoRAG-algorithm/reproduce/winrate_comparison/batch_winrate_eval_calculate.py:55-71 | under either check, the question loop succeeds exactly when every question can be counted, and then adds the category's votes for that file |
| WinrateTally.CountFiles | VideoRAG-algorithm/reproduce/winrate_comparison/batch_winrate_eval_calculate.py:50-71 | under either check, the file loop succeeds exactly when every question of every file can be counted, and then adds the category's votes over all files |
| WinrateTally.CountsAfterStep | VideoRAG-algorithm/reproduce/winrate_comparison/batch_winrate_eval_calculate.py:42-71 | counting one more category adds its question count once and its votes to the overall tally and its domain's row |
| WinrateTally.CountWins | VideoRAG-algorithm/reproduce/winrate_comparison/batch_winrate_eval_calculate.py:41-71 | under either check, the whole tally fails exactly when some question of some file cannot be counted; otherwise the question count is the dataset's whatever the number of files, and the overall tally and each domain's row hold exactly their categories' votes |
| WinrateTally.IntendedAcceptedAsWritten | VideoRAG-algorithm/reproduce/winrate_comparison/batch_winrate_eval_calculate.py:41-71 | every dataset the intended tally accepts is accepted by the script's tally too |
| WinrateTally.CountedVerdictsValid | VideoRAG-algorithm/reproduce/winrate_comparison/batch_winrate_eval_calculate.py:55-71 | under the intended check every counted question has both judgements, each with a valid verdict for every metric |
| WinrateTally.TiePassesAsWritten | VideoRAG-algorithm/reproduce/winrate_comparison/batch_winrate_eval_calculate.py:59-63 | a judgement whose comprehensiveness verdict is "Tie" passes the script's check but not the intended one, and both its comprehensiveness votes go to the second system |
| WinrateTally.TieVotesForSecond | VideoRAG-algorithm/reproduce/winrate_comparison/batch_winrate_eval_calculate.py:61-71 | a "Tie" in the original order and "Answer 1" in the reversed one give the metric two votes for the second system |
| WinrateTally.OneQuestionTally | VideoRAG-algorithm/reproduce/winrate_comparison/batch_winrate_eval_calculate.py:41-71 | a dataset of one question in one result file is accepted exactly when that question can be counted, and its tally is that question's votes |
| WinrateTally.TieCountedAsWritten | VideoRAG-algorithm/reproduce/winrate_comparison/batch_winrate_eval_calculate.py:41-71 | the script's tally accepts a one-question dataset whose original-order comprehensiveness verdict is "Tie" and counts two comprehensiveness votes for the second system; the intended tally refuses it |
| QuantParse.MetricCheck | VideoRAG-algorithm/reproduce/quantitative_comparison/batch_quant_eval_parse.py:30-31 | a metric entry passes exactly when it is an object with a Score of 1 to 5 (where Python's True counts as 1) and an Explanation key |
| QuantParse.CheckResponseValid | VideoRAG-algorithm/reproduce/quantitative_comparison/batch_quant_eval_parse.py:25-31 | the validator accepts exactly the judgements with the six metric keys and valid entries; a judgement with the right keys is refused with the error of its first invalid metric |
| QuantParse.KeySetHasSix | VideoRAG-algorithm/reproduce/quantitative_comparison/batch_quant_eval_parse.py:26-28 | a dict with exactly the six metric keys has length six, so the length assertion never refuses what the key-set assertion accepts |
| QuantParse.Sub | VideoRAG-algorithm/reproduce/quantitative_comparison/batch_quant_eval_parse.py:41-43 | subscripting a document by a key succeeds exactly when it is a dict holding that key, and then gives that key's value |
| QuantParse.Key | VideoRAG-algorithm/reproduce/quantitative_comparison/batch_quant_eval_parse.py:45-72 | a custom id can key a dict exactly when it is not a list or a dict |
| QuantParse.BuildRequestDict | VideoRAG-algorithm/reproduce/quantitative_comparison/batch_quant_eval_parse.py:68-76 | building the request dict fails with the first line that does not decode or lacks a field; otherwise its keys are the lines' custom ids and each id maps to the model, messages and response format of its last line |
| QuantParse.Rerequest | VideoRAG-algorithm/reproduce/quantitative_comparison/batch_quant_eval_parse.py:48-64 | the re-request loop ends with the first reply that decodes to a valid judgement, and with none when the custom id has no request or no reply passes |
| QuantParse.ProcessFile | VideoRAG-algorithm/reproduce/quantitative_comparison/batch_quant_eval_parse.py:33-66 | a result file must hold as many results as there are requests; once parsed, every stored judgement is valid, the stored keys are the results' custom ids, a passing batch judgement is kept unless a later result reuses its id, and the number asked for again is the number of results whose batch judgement did not pass |
| QuantParse.FirstPassingAt | VideoRAG-algorithm/reproduce/quantitative_comparison/batch_quant_eval_parse.py:48-60 | when reply i is the first valid one, the loop ends with its judgement |
| QuantParse.FirstPassingNone | VideoRAG-algorithm/reproduce/quantitative_comparison/batch_quant_eval_parse.py:48-64 | when no reply is valid, the loop ends with nothing |
| QuantParse.FirstPassingValid | VideoRAG-algorithm/reproduce/quantitative_comparison/batch_quant_eval_parse.py:55-57 | whatever the re-request loop ends with is a valid judgement |
| QuantParse.ParseOutcomeSound | VideoRAG-algorithm/reproduce/quantitative_comparison/batch_quant_eval_parse.py:40-64 | whatever a result ends with is stored under its own custom id and is a valid judgement, and a passing batch judgement is always the one kept |
| QuantParse.ParseResult | VideoRAG-algorithm/reproduce/quantitative_comparison/batch_quant_eval_parse.py:40-64 | one result ends with what ParseOutcome says: its own custom id with its batch judgement whenever that passes, else what asking again ends with |
| QuantParse.StoreStep | VideoRAG-algorithm/reproduce/quantitative_comparison/batch_quant_eval_parse.py:45-57 | storing one more result extends the key set by its id and keeps every passing batch judgement that no later result overwrote |
| QuantParse.OneJudgementPerResult | VideoRAG-algorithm/reproduce/quantitative_comparison/batch_quant_eval_parse.py:37-45 | when the results' custom ids are distinct a parsed file holds exactly one judgement per request |

## Left out

- Model inference is not modelled. Loading ImageBind, Whisper and the caption models, and running them, are inputs; the model takes either their result or the exception they raise.
- LLM and embedding clients, HTTP transport, Flask routing, the HTTP ImageBind client, the model-download route, port probing and the axios instance are not modelled, because they are network plumbing.
- Worker processes, threads, executors, asyncio and React effects are not modelled; every operation is sequential.
  - Process liveness and the OS process table are inputs.
  - Spawning a worker is the pid it receives.
  - Locks are not modelled.
- Clocks and randomness are parameters: timestamps, `time.time()`, `Date`, and the pids and chat ids a run is given. `generateChatId` and `generateMessageId` are not modelled, because they are random text.
- JSON encoding and decoding, file reading and writing, and `localStorage` are not modelled as byte streams.
  - A file system is a map from path to document.
  - A decoder is a function parameter that may fail.
  - `localStorage` is a map from key to stored text.
- JavaScript and Python floating point is modelled as exact reals; NaN and the infinities appear only in the Findings.
- Floating-point statistics are not modelled, because they only feed logs and displays:
  - `np.linspace` frame times;
  - timing, speed and ETA figures;
  - the 0.95 × 4.5 GB completeness check;
  - `formatFileSize`;
  - the printed win-rate percentages;
  - the quantitative score means.
- Logging, progress-queue messages, console output and `toast` notifications are not modelled. Neither are the statistics files that `split.py` and `caption.py` write for display.
- AsrEpyc.ParallelTranscribe: with a negative number of models the batches' model indices (Python's floor modulo, never positive) are not modelled; no instance is loaded, so every lookup raises and is caught, and each file gets the empty text whatever its index.
- AsrEpyc.ParallelTranscribe: results are collected in batch order, while the source collects them in completion order. The transcript dictionary is the same either way, because each segment index occurs once.
- `setup_epyc_optimization` is not modelled. Its allocator variable and logger levels are process settings with no effect on the bookkeeping.
- `get_epyc_manager`'s singleton and `config_override` are not modelled; only the preload loop of the manager is. `get_performance_stats` is not modelled; it is a display helper.
- QuantParse.ProcessFile: the endless re-request loop runs over a finite sequence of replies per custom id. When none of them passes, the result is `Stuck`, the point at which the script would still be asking.
- QuantParse.ProcessFile: a result file whose top level is not a list is not modelled. The five result files run on threads in the source; here they are modelled one file at a time.
- `FolderUpload.scanFileStructure` is not modelled, because it walks dropped directories through browser entry APIs. HandleDrop takes the files that walk found as a parameter, and so does not show that sub-entries are read through the wrong method and nested files are skipped.
- `getVideoThumbnail` and the video error texts in `lib/utils.ts` are not modelled, because they are browser media handling.
- ChatHistory.Preview: lengths count characters, while JavaScript counts UTF-16 code units, so text outside the basic plane is cut differently.
- The `isLoading` flag, `refreshHistory` and the reload event of the chat-history hook are not modelled. `refreshHistory` is `LoadHistory` on the hook's own chat id.
- The polling interval of the batch monitor is not modelled. Each `FetchStatus` call is one tick.
- UI components that repeat the stage arithmetic of `types/video.ts` are not modelled, and neither are environment shims, ad-hoc scripts or the evaluation upload and download scripts. The upload script's custom ids are modelled, because the tally looks them up.
- Common.Strip: text is ASCII only. `Strip` removes the six ASCII whitespace characters (space, tab, newline, carriage return, vertical tab, form feed); Python's `strip()` also removes \x1c-\x1f, \x85, \xa0 and the Unicode spaces.
- Common.ToLower: folds only A-Z; Python's `lower()` and JavaScript's `toLowerCase()` fold all of Unicode. The directory sort key, the extension tests of DirectoryScan, FolderUpload and WebUpload, and VideoSelector's search inherit this.
- ConfigSelection.PyInt: reads an optional sign and ASCII digits between ASCII whitespace; `int()` also accepts underscores between digits (`1_000`) and non-ASCII digits. The environment parsing of ConfigSelection and EpycConfig inherits this.
- BatchStatus.BatchMonitor.FetchStatus: a report is compared with the last one as a value. `JSON.stringify` also tells apart two reports whose keys come in a different order, and sees keys outside the typed report; neither is modelled.
- AsrEpyc.ModelCache.Stats: returns the hit rate as a number; the source formats it as a percentage text with two decimals.
- CaptionMerge.SegmentCaption: the log appends, the progress reports and `torch.cuda.empty_cache` are taken never to raise, and the records written are described by their path and success flag only; the outer except's own log and error-log writes are not modelled.
- VideoSelector.Selector.HandleSubmit: the selected paths are sent as a set; the insertion order in which `Array.from(selectedItems)` lists them is not modelled.
- CaptionMerge.RetrievedSegmentCaption: the `eval` of the time fields is a parameter that returns a number or the error it raises; opening the video and sampling its frames are not modelled.
- IntermediateStorage.StorageManager.SaveStepResult: the `.npy` encoding is not modelled; each array file holds its array as one document. A failing `np.save` may leave a partial file, where the model leaves the file as it was.

## Findings

| source | as written | input that shows it | evidently intended | confidence | as-written member | corrected member |
|---|---|---|---|---|---|---|
| backend/videorag_api.py:181-182 | an Azure embedding URL selects `azure_openai_embedding`, which is never defined or imported, so the NameError handler returns the OpenAI default | EMBEDDING_BASE_URL = "https://azure" | an Azure URL selects Azure's embedding function and the ada-002 model | not executed | ConfigSelection.AzureUrlFallsBack | ConfigSelection.AzureUrlIntended |
| web/src/types/video.ts:159-162 | under an hour the minutes are floored but the remaining seconds are rounded, so they can reach 60 | 119.5 seconds | "2分0秒", with the seconds field always below 60 | not executed | StageProgress.FormatSixtySeconds | StageProgress.FormatProcessingTime |
| web/src/hooks/useBatchProcessingStatus.ts:80 | the progress percentage divides by totalVideos with no guard | a batch of zero videos | 0% progress for an empty batch (a negative total, which MapBackendStatus keeps as written, gives a negative percentage) | not executed | BatchStatus.EmptyBatchProgressNaN | BatchStatus.RatioPercent |
| web/src/components/VideoSelector.tsx:285-286 | the search overwrites each directory's `children` in the shared tree, so a search that matches nothing leaves the directories empty afterwards | a directory holding "a.mp4", searched for "zz" and then cleared | the search shows a filtered copy and leaves the tree unchanged | not executed | VideoSelector.SearchLosesChildren | VideoSelector.FilteredTree |
| VideoRAG-algorithm/reproduce/winrate_comparison/batch_winrate_eval_calculate.py:47-59 | the validity assertion reads the loop variable `_metric` left over from the earlier loops, which is always "Overall Winner", and checks only the original order | a dataset of one question whose original-order Comprehensiveness winner is "Tie" and whose other verdicts say "Answer 1": the tally accepts it and counts two Comprehensiveness votes for the second system | every metric's winner is checked in both orders before it is counted | not executed | WinrateTally.TieCountedAsWritten | WinrateTally.CountedVerdictsValid |
