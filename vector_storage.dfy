// Record, batch and id construction of the two NanoVectorDB-backed stores:
// the text-chunk store, which embeds record contents in batches, and the
// video-segment store, which names each segment `{video}_{index}` and
// encodes its cached clip.  The database library itself, the embedding
// function and the video encoder are oracles.

module VectorStorage {
  import opened Common
  import CaptionMerge

  type Vector = seq<real>
  type Fields = map<string, Json>

  /** One record handed to the database: its JSON fields and its `__vector__`. */
  datatype Row = Row(fields: Fields, vector: Vector)

  /** The class default of `cosine_better_than_threshold`. */
  const DefaultThreshold: real := 0.2

  /** The class default of `segment_retrieval_top_k`. */
  const DefaultSegmentTopK: int := 2

  /** The keys of `global_config` the stores read; `llm` is itself a dictionary. */
  datatype GlobalConfig = GlobalConfig(
    workingDir: Option<string>,
    llm: Option<map<string, int>>,
    queryThreshold: Option<real>,
    videoEmbeddingBatchNum: Option<int>,
    videoEmbeddingDim: Option<int>,
    segmentTopK: Option<int>)

  /** What `NanoVectorDBStorage.__post_init__` settles. */
  datatype TextStore = TextStore(clientFileName: string, maxBatchSize: int, threshold: real, metaFields: set<string>)

  /** What `NanoVectorDBVideoSegmentStorage.__post_init__` settles. */
  datatype VideoStore = VideoStore(clientFileName: string, workingDir: string, maxBatchSize: int, topK: int)

  function ClientFileName(workingDir: string, namespace: string): string
  {
    PathJoin(workingDir, "vdb_" + namespace + ".json")
  }

  /**
   * `NanoVectorDBStorage.__post_init__`: the client file lives in the
   * working directory, batches are `llm.embedding_batch_num` long, and the
   * threshold is the configured `query_better_than_threshold` when present,
   * the dataclass field (0.2 unless the caller gave one) otherwise.  A
   * missing key raises KeyError, in the order the lookups happen.
   */
  function TextStoreOf(config: GlobalConfig, namespace: string, metaFields: set<string>, threshold: real)
    : (r: Result<TextStore, PyError>)
    ensures r.Ok? <==> config.workingDir.Some? && config.llm.Some? && "embedding_batch_num" in config.llm.value
    ensures config.workingDir.None? ==> r == Err(KeyError("working_dir"))
    ensures config.workingDir.Some? && config.llm.None? ==> r == Err(KeyError("llm"))
    ensures r.Ok? ==> r.value.maxBatchSize == config.llm.value["embedding_batch_num"]
    ensures r.Ok? && config.queryThreshold.Some? ==> r.value.threshold == config.queryThreshold.value
    ensures r.Ok? && config.queryThreshold.None? ==> r.value.threshold == threshold
    ensures r.Ok? ==> r.value.metaFields == metaFields
  {
    if config.workingDir.None? then Err(KeyError("working_dir"))
    else if config.llm.None? then Err(KeyError("llm"))
    else if "embedding_batch_num" !in config.llm.value then Err(KeyError("embedding_batch_num"))
    else
      var threshold := if config.queryThreshold.Some? then config.queryThreshold.value else threshold;
      Ok(TextStore(ClientFileName(config.workingDir.value, namespace),
                   config.llm.value["embedding_batch_num"], threshold, metaFields))
  }

  /**
   * `NanoVectorDBVideoSegmentStorage.__post_init__`: batches are
   * `video_embedding_batch_num` long and `top_k` is the configured
   * `segment_retrieval_top_k`, 2 when absent.
   */
  function VideoStoreOf(config: GlobalConfig, namespace: string): (r: Result<VideoStore, PyError>)
    ensures r.Ok? <==> config.workingDir.Some? && config.videoEmbeddingBatchNum.Some? && config.videoEmbeddingDim.Some?
    ensures r.Err? ==> r.error.KeyError?
    ensures r.Ok? ==> r.value.workingDir == config.workingDir.value
    ensures r.Ok? ==> r.value.maxBatchSize == config.videoEmbeddingBatchNum.value
    ensures r.Ok? ==> r.value.topK == (if config.segmentTopK.Some? then config.segmentTopK.value else DefaultSegmentTopK)
  {
    if config.workingDir.None? then Err(KeyError("working_dir"))
    else if config.videoEmbeddingBatchNum.None? then Err(KeyError("video_embedding_batch_num"))
    else if config.videoEmbeddingDim.None? then Err(KeyError("video_embedding_dim"))
    else
      var topK := if config.segmentTopK.Some? then config.segmentTopK.value else DefaultSegmentTopK;
      Ok(VideoStore(ClientFileName(config.workingDir.value, namespace), config.workingDir.value,
                    config.videoEmbeddingBatchNum.value, topK))
  }

  // ------------------------------------------------------------ batching

  /** `f` applied to every element, in order. */
  function MapSeq<T, U>(s: seq<T>, f: T -> U): (r: seq<U>)
    ensures |r| == |s|
    ensures forall j :: 0 <= j < |s| ==> r[j] == f(s[j])
  {
    seq(|s|, j requires 0 <= j < |s| => f(s[j]))
  }

  /** `prefix` put in front of a successful result; an error passes through. */
  function Then(prefix: seq<Vector>, rest: Result<seq<Vector>, PyError>): Result<seq<Vector>, PyError>
  {
    if rest.Err? then rest else Ok(prefix + rest.value)
  }

  lemma ThenThen(a: seq<Vector>, b: seq<Vector>, rest: Result<seq<Vector>, PyError>)
    ensures Then(a, Then(b, rest)) == Then(a + b, rest)
  {
    if rest.Ok? {
      assert a + (b + rest.value) == (a + b) + rest.value;
    }
  }

  /**
   * The embeddings of the batches concatenated in batch order, or the
   * error of the first batch (in batch order) whose embedding raises.
   */
  function EmbedAll<T>(batches: seq<seq<T>>, embed: seq<T> -> Result<seq<Vector>, PyError>)
    : Result<seq<Vector>, PyError>
    decreases |batches|
  {
    if |batches| == 0 then Ok([])
    else
      var first := embed(batches[0]);
      if first.Err? then first else Then(first.value, EmbedAll(batches[1..], embed))
  }

  /**
   * When the embedder treats every item on its own, batching is invisible:
   * the concatenated embeddings are the items' own embeddings, in item
   * order, whatever the batch size.
   */
  lemma {:induction false} EmbedAllPointwise<T>(s: seq<T>, size: nat, embed: seq<T> -> Result<seq<Vector>, PyError>,
                                                f: T -> Vector)
    requires size > 0
    requires forall b :: embed(b) == Ok(MapSeq(b, f))
    ensures EmbedAll(Chunks(s, size), embed) == Ok(MapSeq(s, f))
    decreases |s|
  {
    var cs := Chunks(s, size);
    if |s| == 0 {
    } else if |s| <= size {
      assert cs == [s];
      assert cs[1..] == [];
      assert MapSeq(s, f) + [] == MapSeq(s, f);
    } else {
      assert cs[0] == s[..size] && cs[1..] == Chunks(s[size..], size);
      EmbedAllPointwise(s[size..], size, embed, f);
      assert MapSeq(s[..size], f) + MapSeq(s[size..], f) == MapSeq(s, f);
    }
  }

  /**
   * `range(0, len(items), size)` slicing followed by one embedding call per
   * batch and a concatenation.  A zero size is refused by `range`; a
   * negative one gives no batches, and concatenating nothing raises
   * `noBatches` (ValueError from numpy, RuntimeError from torch).
   */
  method EmbedBatches<T>(items: seq<T>, size: int, embed: seq<T> -> Result<seq<Vector>, PyError>, noBatches: PyError)
    returns (r: Result<seq<Vector>, PyError>)
    requires |items| > 0
    ensures size == 0 ==> r == Err(ValueError("range() arg 3 must not be zero"))
    ensures size < 0 ==> r == Err(noBatches)
    ensures size > 0 ==> r == EmbedAll(Chunks(items, size), embed)
  {
    if size == 0 {
      return Err(ValueError("range() arg 3 must not be zero"));
    }
    if size < 0 {
      return Err(noBatches);
    }
    var batches := Chunks(items, size);
    var embeddings: seq<Vector> := [];
    var i := 0;
    assert batches[0..] == batches;
    assert EmbedAll(batches, embed).Ok? ==> [] + EmbedAll(batches, embed).value == EmbedAll(batches, embed).value;
    while i < |batches|
      invariant 0 <= i <= |batches|
      invariant EmbedAll(batches, embed) == Then(embeddings, EmbedAll(batches[i..], embed))
    {
      assert batches[i..][0] == batches[i] && batches[i..][1..] == batches[i + 1..];
      var e := embed(batches[i]);
      if e.Err? {
        return e;
      }
      ThenThen(embeddings, e.value, EmbedAll(batches[i + 1..], embed));
      embeddings := embeddings + e.value;
      i := i + 1;
    }
    assert embeddings + [] == embeddings;
    r := Ok(embeddings);
  }

  /**
   * `d["__vector__"] = embeddings[i]` for every record: the i-th record
   * gets the i-th row, and a record beyond the last row raises IndexError
   * before anything reaches the database.
   */
  method Attach(records: seq<Fields>, vectors: seq<Vector>) returns (r: Result<seq<Row>, PyError>)
    ensures r.Ok? <==> |records| <= |vectors|
    ensures r.Err? ==> r.error.IndexError?
    ensures r.Ok? ==> |r.value| == |records|
    ensures r.Ok? ==> forall i :: 0 <= i < |records| ==> r.value[i] == Row(records[i] - {"__vector__"}, vectors[i])
    ensures r.Ok? ==> forall i :: 0 <= i < |records| && "__vector__" !in records[i] ==> r.value[i].fields == records[i]
  {
    var rows: seq<Row> := [];
    var i := 0;
    while i < |records|
      invariant 0 <= i <= |records|
      invariant i <= |vectors|
      invariant |rows| == i
      invariant forall j :: 0 <= j < i ==> rows[j] == Row(records[j] - {"__vector__"}, vectors[j])
      invariant forall j :: 0 <= j < i && "__vector__" !in records[j] ==> rows[j].fields == records[j]
    {
      assert "__vector__" !in records[i] ==> records[i] - {"__vector__"} == records[i];
      if i >= |vectors| {
        return Err(IndexError("index out of bounds"));
      }
      rows := rows + [Row(records[i] - {"__vector__"}, vectors[i])];
      i := i + 1;
    }
    r := Ok(rows);
  }

  // ------------------------------------------------------------ text store

  /**
   * `{"__id__": k, **{k1: v1 for k1, v1 in v.items() if k1 in meta_fields}}`:
   * the id plus exactly the meta fields the value has; a meta field named
   * `__id__` comes later in the literal and so wins.
   */
  function Record(id: string, value: Fields, metaFields: set<string>): (r: Fields)
    ensures forall f :: f in r <==> f == "__id__" || (f in value && f in metaFields)
    ensures forall f :: f in r && f != "__id__" ==> r[f] == value[f]
    ensures "__id__" !in metaFields || "__id__" !in value ==> r["__id__"] == JStr(id)
  {
    map["__id__" := JStr(id)] + (map f | f in value && f in metaFields :: value[f])
  }

  predicate AllHaveContent(order: seq<string>, data: map<string, Fields>)
  {
    forall i :: 0 <= i < |order| ==> order[i] in data && "content" in data[order[i]]
  }

  /** `[v["content"] for v in data.values()]`. */
  function Contents(order: seq<string>, data: map<string, Fields>): (r: seq<Json>)
    requires AllHaveContent(order, data)
    ensures |r| == |order|
    ensures forall i :: 0 <= i < |order| ==> r[i] == data[order[i]]["content"]
  {
    seq(|order|, i requires 0 <= i < |order| => data[order[i]]["content"])
  }

  /** The list of records `upsert` builds, one per key in dict order. */
  method TextRecords(order: seq<string>, data: map<string, Fields>, metaFields: set<string>) returns (records: seq<Fields>)
    requires forall i :: 0 <= i < |order| ==> order[i] in data
    ensures |records| == |order|
    ensures forall j :: 0 <= j < |order| ==> records[j] == Record(order[j], data[order[j]], metaFields)
  {
    records := [];
    var i := 0;
    while i < |order|
      invariant 0 <= i <= |order|
      invariant |records| == i
      invariant forall j :: 0 <= j < i ==> records[j] == Record(order[j], data[order[j]], metaFields)
    {
      records := records + [Record(order[i], data[order[i]], metaFields)];
      i := i + 1;
    }
  }

  /** The contents in dict order, or None at the first value without "content". */
  method CollectContents(order: seq<string>, data: map<string, Fields>) returns (r: Option<seq<Json>>)
    requires forall i :: 0 <= i < |order| ==> order[i] in data
    ensures r.Some? <==> AllHaveContent(order, data)
    ensures r.Some? ==> r.value == Contents(order, data)
  {
    var contents: seq<Json> := [];
    var i := 0;
    while i < |order|
      invariant 0 <= i <= |order|
      invariant |contents| == i
      invariant forall j :: 0 <= j < i ==> "content" in data[order[j]] && contents[j] == data[order[j]]["content"]
    {
      if "content" !in data[order[i]] {
        return None;
      }
      contents := contents + [data[order[i]]["content"]];
      i := i + 1;
    }
    return Some(contents);
  }

  /**
   * `NanoVectorDBStorage.upsert`: nothing for empty input; otherwise one
   * record per key in dict order carrying its id and meta fields, the
   * contents embedded in batches of `maxBatchSize`, and the i-th record
   * given the i-th row of the concatenated embeddings.  The result is the
   * list of records handed to the database.  A value without "content"
   * raises KeyError, and the batching and attaching errors propagate.
   */
  method Upsert(store: TextStore, order: seq<string>, data: map<string, Fields>,
                embed: seq<Json> -> Result<seq<Vector>, PyError>)
    returns (r: Result<seq<Row>, PyError>)
    requires KeyOrder(order, data)
    ensures |order| == 0 ==> r == Ok([])
    ensures |order| > 0 && !AllHaveContent(order, data) ==> r == Err(KeyError("content"))
    ensures |order| > 0 && AllHaveContent(order, data) && store.maxBatchSize <= 0 ==> r.Err? && r.error.ValueError?
    ensures |order| > 0 && AllHaveContent(order, data) && store.maxBatchSize > 0 ==>
              var embedded := EmbedAll(Chunks(Contents(order, data), store.maxBatchSize), embed);
              (embedded.Err? ==> r == Err(embedded.error)) &&
              (embedded.Ok? ==> (r.Ok? <==> |order| <= |embedded.value|)) &&
              (r.Ok? ==> |r.value| == |order| <= |embedded.value| &&
                         forall i :: 0 <= i < |order| ==> r.value[i].vector == embedded.value[i])
    ensures r.Err? && |order| > 0 && AllHaveContent(order, data) && store.maxBatchSize > 0 ==>
              r.error.IndexError? || EmbedAll(Chunks(Contents(order, data), store.maxBatchSize), embed).Err?
    ensures r.Ok? ==> |r.value| == |order|
    ensures r.Ok? ==> forall i :: 0 <= i < |order| ==>
              r.value[i].fields == Record(order[i], data[order[i]], store.metaFields) - {"__vector__"}
  {
    if |order| == 0 {
      return Ok([]);
    }
    var records := TextRecords(order, data, store.metaFields);
    var contents := CollectContents(order, data);
    if contents.None? {
      return Err(KeyError("content"));
    }
    var embedded := EmbedBatches(contents.value, store.maxBatchSize, embed, ValueError("need at least one array to concatenate"));
    if embedded.Err? {
      return Err(embedded.error);
    }
    r := Attach(records, embedded.value);
  }

  /**
   * With an embedder that treats each content on its own, every record's
   * vector is the embedding of its own content, whatever the batch size.
   */
  lemma UpsertPointwise(store: TextStore, order: seq<string>, data: map<string, Fields>,
                        embed: seq<Json> -> Result<seq<Vector>, PyError>, f: Json -> Vector, i: int)
    requires store.maxBatchSize > 0 && AllHaveContent(order, data) && 0 <= i < |order|
    requires forall b :: embed(b) == Ok(MapSeq(b, f))
    ensures EmbedAll(Chunks(Contents(order, data), store.maxBatchSize), embed).Ok?
    ensures |EmbedAll(Chunks(Contents(order, data), store.maxBatchSize), embed).value| == |order|
    ensures EmbedAll(Chunks(Contents(order, data), store.maxBatchSize), embed).value[i] == f(data[order[i]]["content"])
  {
    EmbedAllPointwise(Contents(order, data), store.maxBatchSize, embed, f);
  }

  // ----------------------------------------------------------- segment store

  /** The record of one segment: its `{video}_{index}` id, video name and index. */
  function SegmentRecord(videoName: string, index: string): (r: Fields)
    ensures r.Keys == {"__id__", "__video_name__", "__index__"}
    ensures "__vector__" !in r
    ensures r["__id__"] == JStr(CaptionMerge.SegmentId(videoName, index))
  {
    map["__id__" := JStr(CaptionMerge.SegmentId(videoName, index)),
        "__video_name__" := JStr(videoName),
        "__index__" := JStr(index)]
  }

  /** Every stored id parses back to its video and index, so retrieval finds the segment it came from. */
  lemma SegmentRecordRetrievable(videoName: string, index: string)
    requires '_' !in index
    ensures CaptionMerge.ParseSegmentId(SegmentRecord(videoName, index)["__id__"].s) == (videoName, index)
  {
    CaptionMerge.ParseSegmentIdInverse(videoName, index);
  }

  /** `{working_dir}/_cache/{video_name}/{segment_name}.{format}`. */
  function SegmentPath(workingDir: string, videoName: string, segmentName: string, format: string): string
  {
    PathJoin(PathJoin(PathJoin(workingDir, "_cache"), videoName), segmentName + "." + format)
  }

  /** The records `upsert` builds, one per index in dict order. */
  method SegmentRecords(videoName: string, order: seq<string>) returns (records: seq<Fields>)
    ensures |records| == |order|
    ensures forall j :: 0 <= j < |order| ==> records[j] == SegmentRecord(videoName, order[j])
  {
    records := [];
    var i := 0;
    while i < |order|
      invariant 0 <= i <= |order|
      invariant |records| == i
      invariant forall j :: 0 <= j < i ==> records[j] == SegmentRecord(videoName, order[j])
    {
      records := records + [SegmentRecord(videoName, order[i])];
      i := i + 1;
    }
  }

  /** The clip paths `upsert` builds, one per index in dict order. */
  method SegmentPaths(workingDir: string, videoName: string, order: seq<string>, indexToName: map<string, string>,
                      format: string)
    returns (paths: seq<string>)
    requires forall i :: 0 <= i < |order| ==> order[i] in indexToName
    ensures |paths| == |order|
    ensures forall j :: 0 <= j < |order| ==> paths[j] == SegmentPath(workingDir, videoName, indexToName[order[j]], format)
  {
    paths := [];
    var i := 0;
    while i < |order|
      invariant 0 <= i <= |order|
      invariant |paths| == i
      invariant forall j :: 0 <= j < i ==> paths[j] == SegmentPath(workingDir, videoName, indexToName[order[j]], format)
    {
      paths := paths + [SegmentPath(workingDir, videoName, indexToName[order[i]], format)];
      i := i + 1;
    }
  }

  /**
   * `NanoVectorDBVideoSegmentStorage.upsert`: the embedder is obtained
   * first, so a failure to load it raises even for empty input; nothing is
   * inserted for no segments; otherwise one record per index in dict order
   * with id `{video}_{index}`, the clip paths encoded in batches of
   * `maxBatchSize`, and the i-th record given the i-th encoded row.
   */
  method UpsertSegments(store: VideoStore, videoName: string, order: seq<string>, indexToName: map<string, string>,
                        format: string, loadError: Option<PyError>,
                        encode: seq<string> -> Result<seq<Vector>, PyError>)
    returns (r: Result<seq<Row>, PyError>, paths: seq<string>)
    requires KeyOrder(order, indexToName)
    ensures loadError.Some? ==> r == Err(loadError.value)
    ensures loadError.None? && |order| == 0 ==> r == Ok([])
    ensures loadError.None? && |order| > 0 ==>
              |paths| == |order| &&
              forall i :: 0 <= i < |order| ==>
                paths[i] == SegmentPath(store.workingDir, videoName, indexToName[order[i]], format)
    ensures loadError.None? && |order| > 0 && store.maxBatchSize == 0 ==> r.Err? && r.error.ValueError?
    ensures loadError.None? && |order| > 0 && store.maxBatchSize < 0 ==> r.Err? && r.error.RuntimeError?
    ensures loadError.None? && |order| > 0 && store.maxBatchSize > 0 ==>
              var encoded := EmbedAll(Chunks(paths, store.maxBatchSize), encode);
              (encoded.Err? ==> r == Err(encoded.error)) &&
              (encoded.Ok? ==> (r.Ok? <==> |order| <= |encoded.value|)) &&
              (r.Ok? ==> |r.value| == |order| <= |encoded.value| &&
                         forall i :: 0 <= i < |order| ==> r.value[i].vector == encoded.value[i])
    ensures r.Ok? ==> |r.value| == |order|
    ensures r.Ok? ==> forall i :: 0 <= i < |order| ==> r.value[i].fields == SegmentRecord(videoName, order[i])
  {
    paths := [];
    if loadError.Some? {
      return Err(loadError.value), paths;
    }
    if |order| == 0 {
      return Ok([]), paths;
    }
    var records := SegmentRecords(videoName, order);
    paths := SegmentPaths(store.workingDir, videoName, order, indexToName, format);
    var encoded := EmbedBatches(paths, store.maxBatchSize, encode, RuntimeError("torch.cat(): expected a non-empty list of Tensors"));
    if encoded.Err? {
      return Err(encoded.error), paths;
    }
    r := Attach(records, encoded.value);
  }

  // ------------------------------------------------------------- queries

  /**
   * `[{**dp, "id": dp["__id__"], "distance": dp["__metrics__"]} for dp in results]`:
   * every hit keeps its fields and gains its id and distance; a hit
   * without `__id__` or `__metrics__` raises KeyError.
   */
  function Hits(hits: seq<Fields>): (r: Result<seq<Fields>, PyError>)
    ensures r.Ok? <==> forall i :: 0 <= i < |hits| ==> "__id__" in hits[i] && "__metrics__" in hits[i]
    ensures r.Err? ==> r.error.KeyError?
    ensures r.Ok? ==> |r.value| == |hits|
    ensures r.Ok? ==> forall i :: 0 <= i < |hits| ==>
              r.value[i].Keys == hits[i].Keys + {"id", "distance"} &&
              r.value[i]["id"] == hits[i]["__id__"] && r.value[i]["distance"] == hits[i]["__metrics__"] &&
              (forall f :: f in hits[i] && f != "id" && f != "distance" ==> r.value[i][f] == hits[i][f])
  {
    if |hits| == 0 then Ok([])
    else
      var dp := hits[0];
      if "__id__" !in dp then Err(KeyError("__id__"))
      else if "__metrics__" !in dp then Err(KeyError("__metrics__"))
      else
        var rest := Hits(hits[1..]);
        if rest.Err? then rest
        else Ok([dp["id" := dp["__id__"]]["distance" := dp["__metrics__"]]] + rest.value)
  }

  /**
   * `NanoVectorDBStorage.query`: embed the query alone, take the first row,
   * search with the store's threshold and shape the hits.
   */
  function Query(store: TextStore, query: Json, topK: int, embed: seq<Json> -> Result<seq<Vector>, PyError>,
                 search: (Vector, int, real) -> seq<Fields>): (r: Result<seq<Fields>, PyError>)
    ensures embed([query]).Err? ==> r == Err(embed([query]).error)
    ensures embed([query]).Ok? && |embed([query]).value| == 0 ==> r.Err? && r.error.IndexError?
    ensures embed([query]).Ok? && |embed([query]).value| > 0 ==>
              r == Hits(search(embed([query]).value[0], topK, store.threshold))
  {
    var e := embed([query]);
    if e.Err? then Err(e.error)
    else if |e.value| == 0 then Err(IndexError("index 0 is out of bounds"))
    else Hits(search(e.value[0], topK, store.threshold))
  }

  /**
   * `NanoVectorDBVideoSegmentStorage.query`: load the embedder, encode the
   * query and search the store's top_k with threshold -1, so no hit is cut
   * by similarity.
   */
  function QuerySegments(store: VideoStore, query: string, loadError: Option<PyError>,
                         encode: string -> Result<seq<Vector>, PyError>,
                         search: (Vector, int, real) -> seq<Fields>): (r: Result<seq<Fields>, PyError>)
    ensures loadError.Some? ==> r == Err(loadError.value)
    ensures loadError.None? && encode(query).Err? ==> r == Err(encode(query).error)
    ensures loadError.None? && encode(query).Ok? && |encode(query).value| > 0 ==>
              r == Hits(search(encode(query).value[0], store.topK, -1.0))
  {
    if loadError.Some? then Err(loadError.value)
    else
      var e := encode(query);
      if e.Err? then Err(e.error)
      else if |e.value| == 0 then Err(IndexError("index 0 is out of bounds"))
      else Hits(search(e.value[0], store.topK, -1.0))
  }
}
