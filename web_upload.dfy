// The upload side of the web API: which file names are accepted, how an
// upload is validated, named and stored, and how `upload_video_web` checks
// the uploaded paths before it starts an indexing job.

module WebUpload {
  import opened Common
  import opened StatusStore
  import opened ProcessManager

  const AllowedExtensions: set<string> := {"mp4", "webm", "ogg", "mov", "avi", "mkv"}
  const UploadRoot: string := "/app/uploads"

  /** `allowed_file`: a '.' occurs and the lowercased text after the last one is an allowed extension. */
  predicate AllowedFile(filename: string)
  {
    '.' in filename && ToLower(RSplitOnce(filename, '.')[1]) in AllowedExtensions
  }

  /** The last '.' splits `stem + "." + ext` at the separator shown when `ext` holds no '.'. */
  lemma LastDotSplit(filename: string, stem: string, ext: string)
    requires filename == stem + "." + ext && '.' !in ext
    ensures RSplitOnce(filename, '.') == [stem, ext]
  {
    var parts := RSplitOnce(filename, '.');
    assert filename[|stem|] == '.';
    var i := |parts[0]|;
    assert filename[i] == '.';
    assert forall k :: i < k < |filename| ==> filename[k] == parts[1][k - i - 1];
    assert forall k :: |stem| < k < |filename| ==> filename[k] == ext[k - |stem| - 1];
    assert i == |stem|;
    assert parts[0] == filename[..i] == stem;
    assert parts[1] == filename[i + 1..] == ext;
  }

  /** The extension tested is the text after the last '.', whatever the stem holds. */
  lemma AllowedFileSplit(filename: string, stem: string, ext: string)
    requires filename == stem + "." + ext && '.' !in ext
    ensures AllowedFile(filename) <==> ToLower(ext) in AllowedExtensions
  {
    LastDotSplit(filename, stem, ext);
  }

  /** The `file` part and the `chat_id` form field of an upload request. */
  datatype UploadForm = UploadForm(file: Option<string>, chatId: Option<string>)

  /** Each early return of the upload routes; the first six answer 400, the two failures 500. */
  datatype WebError =
    | NoFileProvided
    | ChatIdRequired
    | NoFileSelected
    | TypeNotAllowed
    | NoUploadedFiles
    | FileNotFound(path: Option<string>)
    | UploadFailed(cause: PyError)
    | StartFailed(cause: PyError)

  function HttpStatus(e: WebError): (code: nat)
    ensures code == 400 <==> !(e.UploadFailed? || e.StartFailed?)
    ensures code != 400 ==> code == 500
  {
    if e.UploadFailed? || e.StartFailed? then 500 else 400
  }

  /** What the video probe reports; a failed probe is `None`. */
  datatype Probe = Probe(duration: real, fps: real, width: int, height: int)

  datatype Receipt = Receipt(
    filename: string,
    originalName: string,
    filePath: string,
    duration: real,
    fps: real,
    width: int,
    height: int,
    chatId: string)

  /**
   * The checks `upload_file` makes before touching the disk, in the order it
   * makes them: the first that fails is the answer.
   */
  function CheckUpload(form: UploadForm): (r: Option<WebError>)
    ensures r.None? <==> form.file.Some? && form.chatId.Some? && form.chatId.value != "" &&
                         form.file.value != "" && AllowedFile(form.file.value)
    ensures r == Some(NoFileProvided) <==> form.file.None?
    ensures r == Some(ChatIdRequired) <==> form.file.Some? && (form.chatId.None? || form.chatId.value == "")
    ensures r == Some(NoFileSelected) <==>
              form.file.Some? && form.chatId.Some? && form.chatId.value != "" && form.file.value == ""
    ensures r.Some? ==> r.value in {NoFileProvided, ChatIdRequired, NoFileSelected, TypeNotAllowed}
  {
    if form.file.None? then Some(NoFileProvided)
    else if form.chatId.None? || form.chatId.value == "" then Some(ChatIdRequired)
    else if form.file.value == "" then Some(NoFileSelected)
    else if !AllowedFile(form.file.value) then Some(TypeNotAllowed)
    else None
  }

  /** `{timestamp}_{secure name}`: the stored file name. */
  function SavedName(timestamp: nat, secureName: string): string
  {
    NatToString(timestamp) + "_" + secureName
  }

  /** `os.path.join(os.path.join('/app/uploads', chat_id), saved)`. */
  function UploadPath(chatId: string, saved: string): string
  {
    PathJoin(PathJoin(UploadRoot, chatId), saved)
  }

  /** A relative chat id that does not end in '/' puts the file directly inside `/app/uploads/<chat_id>/`. */
  lemma UploadPathUnderChat(chatId: string, timestamp: nat, secureName: string)
    requires chatId != "" && !IsAbsolute(chatId) && chatId[|chatId| - 1] != '/'
    ensures UploadPath(chatId, SavedName(timestamp, secureName)) ==
            UploadRoot + "/" + chatId + "/" + SavedName(timestamp, secureName)
  {
    var saved := SavedName(timestamp, secureName);
    var dir := UploadRoot + "/" + chatId;
    assert PathJoin(UploadRoot, chatId) == dir;
    assert dir[|dir| - 1] == chatId[|chatId| - 1];
    assert saved[0] == NatToString(timestamp)[0];
    assert IsDigit(saved[0]);
  }

  /** The chat id is not sanitised: an absolute one replaces the upload root altogether. */
  lemma AbsoluteChatIdLeavesRoot(chatId: string, timestamp: nat, secureName: string)
    requires IsAbsolute(chatId) && chatId[|chatId| - 1] != '/'
    ensures UploadPath(chatId, SavedName(timestamp, secureName)) == chatId + "/" + SavedName(timestamp, secureName)
  {
    var saved := SavedName(timestamp, secureName);
    assert saved[0] == NatToString(timestamp)[0];
    assert IsDigit(saved[0]);
  }

  /**
   * The answer of `upload_file` given the checks, the clock, the sanitised
   * name, whether saving raises and what the probe reports.  A failed
   * probe still answers success, with zero duration, fps and size.
   */
  function UploadResult(form: UploadForm, timestamp: nat, secureName: string, saveFails: bool, probe: Option<Probe>)
    : (r: Result<Receipt, WebError>)
    ensures CheckUpload(form).Some? ==> r == Err(CheckUpload(form).value)
    ensures CheckUpload(form).None? ==> (r.Ok? <==> !saveFails)
    ensures CheckUpload(form).None? && saveFails ==> r.error.UploadFailed?
    ensures r.Ok? ==> r.value.chatId == form.chatId.value && r.value.originalName == secureName &&
                      r.value.filename == SavedName(timestamp, secureName) &&
                      r.value.filePath == UploadPath(form.chatId.value, r.value.filename)
    ensures r.Ok? && probe.None? ==> r.value.duration == 0.0 && r.value.fps == 0.0 &&
                                     r.value.width == 0 && r.value.height == 0
    ensures r.Ok? && probe.Some? ==> r.value.duration == probe.value.duration && r.value.fps == probe.value.fps &&
                                     r.value.width == probe.value.width && r.value.height == probe.value.height
  {
    match CheckUpload(form)
    case Some(e) => Err(e)
    case None =>
      if saveFails then Err(UploadFailed(IOError("save")))
      else
        var chatId := form.chatId.value;
        var saved := SavedName(timestamp, secureName);
        var p := if probe.Some? then probe.value else Probe(0.0, 0.0, 0, 0);
        Ok(Receipt(saved, secureName, UploadPath(chatId, saved), p.duration, p.fps, p.width, p.height, chatId))
  }

  /** The upload area on disk: a map from path to the bytes stored there. */
  class UploadArea {
    var files: map<string, seq<bv8>>

    constructor ()
      ensures files == map[]
    {
      files := map[];
    }

    /**
     * `upload_file`: validate, then store the content under its saved path
     * (overwriting a file of the same name) and answer with the receipt.
     * Nothing is stored when a check fails or the save raises.
     */
    method UploadFile(form: UploadForm, content: seq<bv8>, timestamp: nat, secureName: string,
                      saveFails: bool, probe: Option<Probe>)
      returns (r: Result<Receipt, WebError>)
      modifies this
      ensures r == UploadResult(form, timestamp, secureName, saveFails, probe)
      ensures r.Ok? ==> files == old(files)[r.value.filePath := content]
      ensures r.Err? ==> files == old(files)
    {
      var check := CheckUpload(form);
      if check.Some? {
        return Err(check.value);
      }
      if saveFails {
        return Err(UploadFailed(IOError("save")));
      }
      var chatId := form.chatId.value;
      var saved := SavedName(timestamp, secureName);
      var path := UploadPath(chatId, saved);
      files := files[path := content];
      var p := if probe.Some? then probe.value else Probe(0.0, 0.0, 0, 0);
      r := Ok(Receipt(saved, secureName, path, p.duration, p.fps, p.width, p.height, chatId));
    }
  }

  /** An entry of `uploaded_files` names an existing file. */
  predicate Present(path: Option<string>, existing: set<string>)
  {
    path.Some? && path.value != "" && path.value in existing
  }

  /**
   * The path check of `upload_video_web`: an empty list is refused; the
   * first entry whose path is missing or does not exist is reported;
   * otherwise every path, in input order.
   */
  method CollectVideoPaths(uploaded: seq<Option<string>>, existing: set<string>)
    returns (r: Result<seq<string>, WebError>)
    ensures |uploaded| == 0 ==> r == Err(NoUploadedFiles)
    ensures r.Ok? <==> |uploaded| > 0 && forall i :: 0 <= i < |uploaded| ==> Present(uploaded[i], existing)
    ensures r.Ok? ==> |r.value| == |uploaded| && forall i :: 0 <= i < |uploaded| ==> uploaded[i] == Some(r.value[i])
    ensures r.Err? && |uploaded| > 0 ==>
              exists i :: 0 <= i < |uploaded| && !Present(uploaded[i], existing) &&
                          (forall j :: 0 <= j < i ==> Present(uploaded[j], existing)) &&
                          r == Err(FileNotFound(uploaded[i]))
  {
    if |uploaded| == 0 {
      return Err(NoUploadedFiles);
    }
    var paths: seq<string> := [];
    var i := 0;
    while i < |uploaded|
      invariant 0 <= i <= |uploaded| && |paths| == i
      invariant forall j :: 0 <= j < i ==> Present(uploaded[j], existing) && uploaded[j] == Some(paths[j])
    {
      if !Present(uploaded[i], existing) {
        return Err(FileNotFound(uploaded[i]));
      }
      paths := paths + [uploaded[i].value];
      i := i + 1;
    }
    r := Ok(paths);
  }

  /** The `video_names` of the answer: each path's base name, in order. */
  function VideoNames(paths: seq<string>): (r: seq<string>)
    ensures |r| == |paths|
    ensures forall i :: 0 <= i < |paths| ==> r[i] == Basename(paths[i])
  {
    if |paths| == 0 then [] else [Basename(paths[0])] + VideoNames(paths[1..])
  }

  datatype Started = Started(videoNames: seq<string>, videoCount: nat, chatId: string)

  /**
   * `upload_video_web`: check the paths, then start indexing them for the
   * chat; nothing is started when a path check fails, and a failure to
   * start answers 500.
   */
  method UploadVideoWeb(pm: VideoRagProcessManager, chatId: string, uploaded: seq<Option<string>>,
                        existing: set<string>, now: real, pid: nat, fails: bool)
    returns (r: Result<Started, WebError>)
    modifies pm, pm.disk
    ensures pm.globalConfig == old(pm.globalConfig)
    ensures (|uploaded| == 0 || exists i :: 0 <= i < |uploaded| && !Present(uploaded[i], existing)) ==>
              r.Err? && HttpStatus(r.error) == 400 && pm.running == old(pm.running) && pm.disk.files == old(pm.disk.files)
    ensures r.Ok? ==> |uploaded| > 0 && r.value.videoCount == |uploaded| && r.value.chatId == chatId &&
                      |r.value.videoNames| == |uploaded| &&
                      (forall i :: 0 <= i < |uploaded| ==>
                         Present(uploaded[i], existing) && r.value.videoNames[i] == Basename(uploaded[i].value)) &&
                      chatId in pm.running && pm.running[chatId].kind == "video_indexing"
    ensures |uploaded| > 0 && (forall i :: 0 <= i < |uploaded| ==> Present(uploaded[i], existing)) ==>
              match BasePath(old(pm.globalConfig))
              case Err(e) => r == Err(StartFailed(e)) && pm.running == old(pm.running) && pm.disk.files == old(pm.disk.files)
              case Ok(base) =>
                var w := WriteStatus(old(pm.disk.files), StatusFilePath(base, chatId), InitialStatus(|uploaded|, now), fails);
                pm.disk.files == w.1 &&
                (w.0.Err? ==> r == Err(StartFailed(w.0.error)) && pm.running == old(pm.running)) &&
                (w.0.Ok? ==> r.Ok? && pm.running == old(pm.running)[chatId := ProcessRecord("video_indexing", chatId, now, pid)])
  {
    var paths := CollectVideoPaths(uploaded, existing);
    if paths.Err? {
      return Err(paths.error);
    }
    var started := pm.StartVideoIndexing(chatId, paths.value, now, pid, fails);
    if started.Err? {
      return Err(StartFailed(started.error));
    }
    r := Ok(Started(VideoNames(paths.value), |paths.value|, chatId));
  }
}
