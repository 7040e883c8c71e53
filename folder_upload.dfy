// The web client's folder/file picker: which files count as videos, and
// the summary it hands on for a file selection or a drop.  Walking a
// dropped directory uses browser entry APIs; the model takes the files the
// walk produced as given.

module FolderUpload {
  import opened Common

  /** The default accepted extensions. */
  const VideoFormats: seq<string> := [".mp4", ".webm", ".ogg", ".mov", ".avi", ".mkv", ".wmv", ".flv", ".m4v", ".3gp"]

  /** The default limit on the total size: 10 GiB. */
  const DefaultMaxSize: int := 10 * 1024 * 1024 * 1024

  /** A file as the browser hands it over: its name and size in bytes. */
  datatype FileInfo = FileInfo(name: string, size: int)

  datatype FileWithPath = FileWithPath(file: FileInfo, path: string, relativePath: string)

  datatype FolderUploadResult = FolderUploadResult(files: seq<FileWithPath>, totalCount: int, totalSize: int,
                                                   videoCount: int, directoryCount: int, skippedCount: int)

  /**
   * Why a selection is refused: its video files are too large together, or
   * there are none.  A selection's message names the total and the limit,
   * a drop's only the limit.
   */
  datatype UploadError = TooLarge(totalSize: Option<int>, limit: int) | NoVideos

  /** `'.' + name.split('.').pop().toLowerCase()`. */
  function Extension(name: string): string
  {
    var parts := Split(name, '.');
    "." + ToLower(parts[|parts| - 1])
  }

  /** The extension is what follows the last '.', lower-cased; a name without '.' is taken whole. */
  lemma ExtensionAfterLastDot(name: string)
    ensures '.' !in name ==> Extension(name) == "." + ToLower(name)
    ensures '.' in name ==> Extension(name) == "." + ToLower(RSplitOnce(name, '.')[1])
  {
    if '.' in name {
      var parts := RSplitOnce(name, '.');
      SplitAppend(parts[0], parts[1], '.');
    }
  }

  /** `isVideoFile`. */
  predicate IsVideoFile(f: FileInfo, acceptedFormats: seq<string>)
  {
    Extension(f.name) in acceptedFormats
  }

  /** `isVideoFile` as a filter predicate. */
  function IsVideo(acceptedFormats: seq<string>): FileInfo -> bool
  {
    f => IsVideoFile(f, acceptedFormats)
  }

  /** The files a selection skips. */
  function NotVideo(acceptedFormats: seq<string>): FileInfo -> bool
  {
    f => !IsVideoFile(f, acceptedFormats)
  }

  function TotalSize(files: seq<FileWithPath>): int
  {
    if |files| == 0 then 0 else files[0].file.size + TotalSize(files[1..])
  }

  /** The selected files that are videos, in order, each with its name as path and relative path. */
  function VideoFiles(files: seq<FileInfo>, acceptedFormats: seq<string>): (r: seq<FileWithPath>)
    ensures |r| == Count(files, IsVideo(acceptedFormats))
    ensures forall k :: 0 <= k < |r| ==> r[k].path == r[k].file.name == r[k].relativePath && IsVideoFile(r[k].file, acceptedFormats)
    ensures forall k :: 0 <= k < |r| ==> r[k].file in files
    ensures forall f :: f in files && IsVideoFile(f, acceptedFormats) ==> exists k :: 0 <= k < |r| && r[k].file == f
  {
    var v := Filter(files, IsVideo(acceptedFormats));
    var r := WithPaths(v);
    assert forall k :: 0 <= k < |r| ==> v[k] in v;
    r
  }

  /** Each file with its name as path and relative path, in order. */
  function WithPaths(v: seq<FileInfo>): (r: seq<FileWithPath>)
    ensures |r| == |v|
    ensures forall k :: 0 <= k < |r| ==> r[k].file == v[k] && r[k].path == v[k].name == r[k].relativePath
    ensures forall f :: f in v ==> exists k :: 0 <= k < |r| && r[k].file == f
  {
    var r := seq(|v|, k requires 0 <= k < |v| => FileWithPath(v[k], v[k].name, v[k].name));
    assert forall f :: f in v ==> exists k :: 0 <= k < |r| && r[k].file == f by {
      forall f | f in v
        ensures exists k :: 0 <= k < |r| && r[k].file == f
      {
        var k :| 0 <= k < |v| && v[k] == f;
        assert r[k].file == f;
      }
    }
    r
  }

  /**
   * `handleFileSelect`: nothing when disabled; otherwise the video files
   * with their total size, refused when the total exceeds the limit and
   * then when there are none; the summary counts every selected file, the
   * skipped ones and no directory.
   */
  function HandleFileSelect(disabled: bool, files: seq<FileInfo>, acceptedFormats: seq<string>, maxTotalSize: int)
    : (r: Option<Result<FolderUploadResult, UploadError>>)
    ensures disabled <==> r.None?
    ensures r.Some? && TotalSize(VideoFiles(files, acceptedFormats)) > maxTotalSize ==>
              r.value == Err(TooLarge(Some(TotalSize(VideoFiles(files, acceptedFormats))), maxTotalSize))
    ensures r.Some? && r.value.Err? && r.value.error.NoVideos? ==> VideoFiles(files, acceptedFormats) == []
    ensures r.Some? && r.value.Ok? ==>
              var res := r.value.value;
              res.files == VideoFiles(files, acceptedFormats) && res.videoCount == |res.files| > 0 &&
              res.totalCount == |files| && res.skippedCount == |files| - res.videoCount &&
              res.directoryCount == 0 && res.totalSize == TotalSize(res.files) <= maxTotalSize
    ensures r.Some? && VideoFiles(files, acceptedFormats) != [] && TotalSize(VideoFiles(files, acceptedFormats)) <= maxTotalSize ==>
              r.value.Ok?
  {
    if disabled then None
    else
      var videoFiles := VideoFiles(files, acceptedFormats);
      var totalSize := TotalSize(videoFiles);
      if totalSize > maxTotalSize then Some(Err(TooLarge(Some(totalSize), maxTotalSize)))
      else if |videoFiles| == 0 then Some(Err(NoVideos))
      else Some(Ok(FolderUploadResult(videoFiles, |files|, totalSize, |videoFiles|, 0, |files| - |videoFiles|)))
  }

  /** In a selection summary the videos and the skipped files add up to the files selected. */
  lemma SelectionAddsUp(files: seq<FileInfo>, acceptedFormats: seq<string>, maxTotalSize: int)
    requires HandleFileSelect(false, files, acceptedFormats, maxTotalSize).value.Ok?
    ensures var res := HandleFileSelect(false, files, acceptedFormats, maxTotalSize).value.value;
            res.videoCount + res.skippedCount == res.totalCount &&
            res.skippedCount == Count(files, NotVideo(acceptedFormats))
  {
    CountComplement(files, IsVideo(acceptedFormats), NotVideo(acceptedFormats));
  }

  /** Counting a predicate and its negation covers every element once. */
  lemma {:induction false} CountComplement<T>(s: seq<T>, p: T -> bool, q: T -> bool)
    requires forall x :: q(x) == !p(x)
    ensures Count(s, p) + Count(s, q) == |s|
  {
    if |s| > 0 {
      CountComplement(s[1..], p, q);
    }
  }

  /**
   * `handleDrop`: nothing when disabled or nothing was dropped; otherwise
   * the files the walk found, refused when there are none and then when
   * their total exceeds the limit; the summary counts only those files,
   * skips none and reports one directory.
   */
  function HandleDrop(disabled: bool, itemCount: nat, scanned: seq<FileWithPath>, maxTotalSize: int)
    : (r: Option<Result<FolderUploadResult, UploadError>>)
    ensures disabled || itemCount == 0 <==> r.None?
    ensures r.Some? && scanned == [] ==> r.value == Err(NoVideos)
    ensures r.Some? && scanned != [] && TotalSize(scanned) > maxTotalSize ==> r.value == Err(TooLarge(None, maxTotalSize))
    ensures r.Some? && r.value.Ok? ==>
              r.value.value == FolderUploadResult(scanned, |scanned|, TotalSize(scanned), |scanned|, 1, 0) &&
              scanned != [] && TotalSize(scanned) <= maxTotalSize
  {
    if disabled || itemCount == 0 then None
    else if |scanned| == 0 then Some(Err(NoVideos))
    else if TotalSize(scanned) > maxTotalSize then Some(Err(TooLarge(None, maxTotalSize)))
    else Some(Ok(FolderUploadResult(scanned, |scanned|, TotalSize(scanned), |scanned|, 1, 0)))
  }

  /** The two entry points check in opposite orders: with no video and a negative limit, a selection reports the size and a drop reports no videos. */
  lemma ChecksInOppositeOrder(files: seq<FileInfo>, acceptedFormats: seq<string>)
    requires VideoFiles(files, acceptedFormats) == []
    ensures HandleFileSelect(false, files, acceptedFormats, -1) == Some(Err(TooLarge(Some(0), -1)))
    ensures HandleDrop(false, 1, [], -1) == Some(Err(NoVideos))
  {
  }
}
