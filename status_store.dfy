// The per-session status channel of the API servers: one JSON document per
// chat session, written atomically (temp file, then rename), read back with
// recovery from a missing or corrupt file, and updated by a shallow merge
// into one namespace of the document.
module StatusStore {
  import opened Common

  /** What a status file holds: a JSON document, or text json.load rejects. */
  datatype StoredFile = JsonText(doc: Json) | Unparsable(text: string)

  type Disk = map<string, StoredFile>

  function TempOf(path: string): (t: string)
    ensures t != path
  {
    assert |path + ".tmp"| == |path| + 4;
    path + ".tmp"
  }

  /** `get_session_status_file`: `{base}/chat-{chat_id}/status.json`. */
  function StatusFilePath(base: string, chatId: string): (r: string)
    ensures EndsWith(r, "/status.json")
  {
    var r := PathJoin(PathJoin(base, "chat-" + chatId), "status.json");
    assert r[|r| - 12..] == "/status.json";
    r
  }

  /**
   * `read_status_json`: the stored document, or `{}` when the file is
   * missing or json.load rejects it.
   */
  function ReadStatus(files: Disk, path: string): (r: Json)
    ensures path !in files ==> r == JObj(map[])
    ensures path in files && files[path].Unparsable? ==> r == JObj(map[])
    ensures path in files && files[path].JsonText? ==> r == files[path].doc
  {
    if path in files && files[path].JsonText? then files[path].doc else JObj(map[])
  }

  /** Every path other than `path` and its temp file is as it was. */
  ghost predicate OthersUnchanged(before: Disk, after: Disk, path: string)
  {
    forall p :: p != path && p != TempOf(path) ==>
      (p in after <==> p in before) && (p in before ==> after[p] == before[p])
  }

  /**
   * `write_status_json`: dump to `path.tmp`, then rename onto `path`.
   * `fails` says whether the dump or the rename raises; the handler then
   * removes the temp file and re-raises, so the document at `path` is
   * either wholly the new one or wholly the old one.
   */
  function WriteStatus(files: Disk, path: string, doc: Json, fails: bool): (r: (Result<(), PyError>, Disk))
    ensures TempOf(path) !in r.1
    ensures r.0.Ok? <==> !fails
    ensures r.0.Ok? ==> ReadStatus(r.1, path) == doc
    ensures r.0.Err? ==> (path in r.1 <==> path in files) && (path in files ==> r.1[path] == files[path])
    ensures OthersUnchanged(files, r.1, path)
  {
    var cleaned := files - {TempOf(path)};
    if fails then (Err(IOError("status write failed")), cleaned)
    else (Ok(()), cleaned[path := JsonText(doc)])
  }

  /** The namespace `status_type` of a document, `{}` when absent. */
  function Namespace(doc: Json, statusType: string): Json
  {
    if doc.JObj? && statusType in doc.fields then doc.fields[statusType] else JObj(map[])
  }

  /**
   * The in-memory step of `update_session_status`: create `doc[status_type]`
   * when absent, `dict.update` it with `data`, then set `last_updated`.  A
   * document that is not an object fails the membership test or the item
   * assignment (TypeError); a namespace that is not an object has no
   * `update` (AttributeError).
   */
  function MergeStatus(doc: Json, statusType: string, data: map<string, Json>, now: real): (r: Result<Json, PyError>)
    ensures r.Ok? <==> doc.JObj? && Namespace(doc, statusType).JObj?
    ensures !doc.JObj? ==> r.Err? && r.error.TypeError?
    ensures doc.JObj? && !Namespace(doc, statusType).JObj? ==> r == Err(AttributeError("update"))
    ensures r.Ok? ==> r.value.JObj? && r.value.fields.Keys == doc.fields.Keys + {statusType, "last_updated"}
    ensures r.Ok? ==> r.value.fields["last_updated"] == JNum(now)
    ensures r.Ok? ==> forall k :: k in doc.fields && k != statusType && k != "last_updated" ==>
                        r.value.fields[k] == doc.fields[k]
    ensures r.Ok? && statusType != "last_updated" ==>
              var before := Namespace(doc, statusType).fields;
              var after := r.value.fields[statusType];
              after.JObj? && after.fields.Keys == before.Keys + data.Keys &&
              (forall f :: f in data ==> after.fields[f] == data[f]) &&
              (forall f :: f in before && f !in data ==> after.fields[f] == before[f])
  {
    if !doc.JObj? then Err(TypeError("status document is not a dict"))
    else
      var ns := Namespace(doc, statusType);
      if !ns.JObj? then Err(AttributeError("update"))
      else Ok(JObj(doc.fields[statusType := JObj(ns.fields + data)]["last_updated" := JNum(now)]))
  }

  /** The status files of one server, as a mutable map from path to content. */
  class StatusDisk {
    var files: Disk

    constructor (initial: Disk)
      ensures files == initial
    {
      files := initial;
    }

    /** `write_status_json`. */
    method WriteStatusJson(path: string, doc: Json, fails: bool) returns (r: Result<(), PyError>)
      modifies this
      ensures (r, files) == WriteStatus(old(files), path, doc, fails)
    {
      files := files - {TempOf(path)};
      if fails {
        r := Err(IOError("status write failed"));
      } else {
        files := files[path := JsonText(doc)];
        r := Ok(());
      }
    }

    /** `read_status_json`. */
    function ReadStatusJson(path: string): Json
      reads this
    {
      ReadStatus(files, path)
    }

    /**
     * `update_session_status`: read, merge into `status_type`, stamp
     * `last_updated`, write back.  A merge error raises before anything is
     * written.
     */
    method UpdateSessionStatus(chatId: string, base: string, statusType: string, data: map<string, Json>,
                               now: real, fails: bool) returns (r: Result<(), PyError>)
      modifies this
      ensures var path := StatusFilePath(base, chatId);
              match MergeStatus(ReadStatus(old(files), path), statusType, data, now)
              case Err(e) => r == Err(e) && files == old(files)
              case Ok(doc) => (r, files) == WriteStatus(old(files), path, doc, fails)
    {
      var path := StatusFilePath(base, chatId);
      var current := ReadStatusJson(path);
      var merged := MergeStatus(current, statusType, data, now);
      if merged.Err? {
        r := Err(merged.error);
        return;
      }
      r := WriteStatusJson(path, merged.value, fails);
    }
  }

  /**
   * A successful update leaves the document readable with the new fields in
   * the named namespace, and a later read sees every field the update did
   * not mention as it was.
   */
  lemma UpdateThenRead(files: Disk, path: string, statusType: string, data: map<string, Json>, now: real, f: string)
    requires statusType != "last_updated"
    requires MergeStatus(ReadStatus(files, path), statusType, data, now).Ok?
    ensures var doc := MergeStatus(ReadStatus(files, path), statusType, data, now).value;
            var after := WriteStatus(files, path, doc, false).1;
            var ns := Namespace(ReadStatus(after, path), statusType);
            ns.JObj? &&
            (f in data ==> f in ns.fields && ns.fields[f] == data[f]) &&
            (f !in data && f in Namespace(ReadStatus(files, path), statusType).fields ==>
               f in ns.fields && ns.fields[f] == Namespace(ReadStatus(files, path), statusType).fields[f])
  {
  }

  /** A corrupt or missing status file behaves exactly like an empty document. */
  lemma CorruptReadsEmpty(files: Disk, path: string, text: string, statusType: string, data: map<string, Json>, now: real)
    ensures MergeStatus(ReadStatus(files[path := Unparsable(text)], path), statusType, data, now)
         == MergeStatus(ReadStatus(files - {path}, path), statusType, data, now)
    ensures MergeStatus(ReadStatus(files - {path}, path), statusType, data, now).Ok?
  {
  }
}
