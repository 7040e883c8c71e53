// The parser of the quantitative evaluation's batch results: the request
// file's lines become a dict from custom id to the request that was sent,
// and every result of a downloaded result file must carry a judgement that
// passes the response validator (six metrics, each with a Score of 1 to 5
// and an Explanation).  A result whose judgement does not pass is asked for
// again, reply by reply, until one does.  Reading and writing the files,
// JSON decoding and the OpenAI call are parameters; the five result files'
// threads are not modelled.

module QuantParse {
  import opened Common

  /** The metric keys a judgement must have, in the order they are checked. */
  const ValidKeys: seq<string> := ["Comprehensiveness", "Empowerment", "Trustworthiness", "Depth", "Density", "Overall Score"]

  /** The same keys as a set, the `set(valid_keys)` of the key assertion. */
  const ValidKeySet: set<string> := {"Comprehensiveness", "Empowerment", "Trustworthiness", "Depth", "Density", "Overall Score"}

  /** `score in [1, 2, 3, 4, 5]` under Python equality, where `True == 1`. */
  predicate ScoreAccepted(score: Json)
  {
    (score.JNum? && score.n in {1.0, 2.0, 3.0, 4.0, 5.0}) || score == JBool(true)
  }

  /** One metric's entry: an object with an accepted Score and an Explanation. */
  predicate MetricValid(v: Json)
  {
    v.JObj? && "Score" in v.fields && ScoreAccepted(v.fields["Score"]) && "Explanation" in v.fields
  }

  /** A judgement the validator accepts: exactly the six metric keys, each entry valid. */
  predicate Valid(data: Json)
  {
    data.JObj? && data.fields.Keys == ValidKeySet &&
    forall i :: 0 <= i < |ValidKeys| ==> ValidKeys[i] in data.fields && MetricValid(data.fields[ValidKeys[i]])
  }

  /** Python's `len` on a decoded JSON value. */
  function PyLen(data: Json): Result<nat, PyError>
  {
    match data
    case JObj(f) => Ok(|f|)
    case JArr(items) => Ok(|items|)
    case JStr(s) => Ok(|s|)
    case _ => Err(TypeError("object has no len()"))
  }

  /** `v["Score"] in [1..5]` and `"Explanation" in v.keys()`, with the exception each step raises. */
  function MetricCheck(v: Json): (r: Result<(), PyError>)
    ensures r.Ok? <==> MetricValid(v)
  {
    if !v.JObj? then Err(TypeError("not subscriptable by str"))
    else if "Score" !in v.fields then Err(KeyError("Score"))
    else if !ScoreAccepted(v.fields["Score"]) then Err(AssertionError("Score"))
    else if "Explanation" !in v.fields then Err(AssertionError("Explanation"))
    else Ok(())
  }

  /**
   * The response validator: the length assertion, the key-set assertion, then
   * each metric in turn.  It accepts exactly the valid judgements, and a
   * judgement with the right keys is refused with its first bad metric's error.
   */
  method CheckResponseValid(data: Json) returns (r: Result<(), PyError>)
    ensures r.Ok? <==> Valid(data)
    ensures r.Err? && data.JObj? && data.fields.Keys == ValidKeySet ==>
      exists i :: 0 <= i < |ValidKeys| && r == MetricCheck(data.fields[ValidKeys[i]]) &&
        forall j :: 0 <= j < i ==> MetricValid(data.fields[ValidKeys[j]])
  {
    var len := PyLen(data);
    if len.Err? {
      return Err(len.error);
    }
    if len.value != 6 {
      if data.JObj? && data.fields.Keys == ValidKeySet {
        KeySetHasSix(data);
      }
      return Err(AssertionError("len(data) == 6"));
    }
    if !data.JObj? {
      return Err(AttributeError("keys"));
    }
    if data.fields.Keys != ValidKeySet {
      return Err(AssertionError("set(data.keys()) == set(valid_keys)"));
    }
    var i := 0;
    while i < |ValidKeys|
      invariant 0 <= i <= |ValidKeys|
      invariant forall j :: 0 <= j < i ==> MetricValid(data.fields[ValidKeys[j]])
    {
      var check := MetricCheck(data.fields[ValidKeys[i]]);
      if check.Err? {
        return check;
      }
      i := i + 1;
    }
    r := Ok(());
  }

  /**
   * The six metric keys are distinct, so a dict with exactly them has six
   * entries: the length assertion never refuses a judgement the key-set
   * assertion accepts.
   */
  lemma KeySetHasSix(data: Json)
    requires data.JObj? && data.fields.Keys == ValidKeySet
    ensures |data.fields| == 6
  {
    assert data.fields.Keys == set k | k in ValidKeys;
    DistinctCard(ValidKeys);
  }

  // ---------------------------------------------------------- JSON access

  /** `doc[key]` for a string key. */
  function Sub(doc: Json, key: string): (r: Result<Json, PyError>)
    ensures r.Ok? <==> doc.JObj? && key in doc.fields
    ensures r.Ok? ==> r.value == doc.fields[key]
  {
    match doc
    case JObj(f) => if key in f then Ok(f[key]) else Err(KeyError(key))
    case _ => Err(TypeError("indices must be integers"))
  }

  /** `doc[0]`: a list's or a string's first element; a dict has no key 0. */
  function First(doc: Json): Result<Json, PyError>
  {
    match doc
    case JArr(items) => if |items| > 0 then Ok(items[0]) else Err(IndexError("list index out of range"))
    case JStr(s) => if |s| > 0 then Ok(JStr(s[..1])) else Err(IndexError("string index out of range"))
    case JObj(_) => Err(KeyError("0"))
    case _ => Err(TypeError("not subscriptable"))
  }

  /** `json.loads` accepts only text. */
  function Text(doc: Json): Result<string, PyError>
  {
    if doc.JStr? then Ok(doc.s) else Err(TypeError("the JSON object must be str"))
  }

  /**
   * A value used as a dict key: lists and objects are unhashable, and
   * `True`/`False` are the same key as `1`/`0`.
   */
  function Key(id: Json): (r: Result<Json, PyError>)
    ensures r.Ok? <==> !id.JArr? && !id.JObj?
  {
    match id
    case JArr(_) => Err(TypeError("unhashable type: 'list'"))
    case JObj(_) => Err(TypeError("unhashable type: 'dict'"))
    case JBool(b) => Ok(JNum(if b then 1.0 else 0.0))
    case _ => Ok(id)
  }

  /** A result's `custom_id`, as a dict key. */
  function IdKey(dp: Json): Result<Json, PyError>
  {
    var id := Sub(dp, "custom_id");
    if id.Err? then Err(id.error) else Key(id.value)
  }

  /** The judgement text of a batch result: `dp["response"]["body"]["choices"][0]["message"]["content"]`. */
  function Content(dp: Json): Result<string, PyError>
  {
    var response := Sub(dp, "response");
    if response.Err? then Err(response.error) else
    var body := Sub(response.value, "body");
    if body.Err? then Err(body.error) else
    var choices := Sub(body.value, "choices");
    if choices.Err? then Err(choices.error) else
    var choice := First(choices.value);
    if choice.Err? then Err(choice.error) else
    var message := Sub(choice.value, "message");
    if message.Err? then Err(message.error) else
    var content := Sub(message.value, "content");
    if content.Err? then Err(content.error) else Text(content.value)
  }

  /** The decoded judgement of a batch result. */
  function BatchReply(dp: Json, decode: string -> Result<Json, PyError>): Result<Json, PyError>
  {
    var content := Content(dp);
    if content.Err? then Err(content.error) else decode(content.value)
  }

  /** A batch result that is stored as it is: it decodes, passes the validator and its id is hashable. */
  predicate BatchAccepted(dp: Json, decode: string -> Result<Json, PyError>)
  {
    BatchReply(dp, decode).Ok? && Valid(BatchReply(dp, decode).value) && IdKey(dp).Ok?
  }

  // ------------------------------------------------------------- requests

  /** What was sent for one custom id. */
  datatype Request = Request(model: Json, messages: Json, responseFormat: Json)

  /**
   * One line of the request file as a dict entry.  The right-hand side (the
   * body's model, messages and response format) is evaluated before the
   * custom id, as in Python's subscript assignment.
   */
  function RequestLine(doc: Json): Result<(Json, Request), PyError>
  {
    var body := Sub(doc, "body");
    if body.Err? then Err(body.error) else
    var model := Sub(body.value, "model");
    if model.Err? then Err(model.error) else
    var messages := Sub(body.value, "messages");
    if messages.Err? then Err(messages.error) else
    var format := Sub(body.value, "response_format");
    if format.Err? then Err(format.error) else
    var id := Sub(doc, "custom_id");
    if id.Err? then Err(id.error) else
    var key := Key(id.value);
    if key.Err? then Err(key.error) else
    Ok((key.value, Request(model.value, messages.value, format.value)))
  }

  /** A request-file line decoded and read as an entry. */
  function LineEntry(line: string, decode: string -> Result<Json, PyError>): Result<(Json, Request), PyError>
  {
    var doc := decode(line);
    if doc.Err? then Err(doc.error) else RequestLine(doc.value)
  }

  /** No line after the i-th has the i-th line's custom id. */
  predicate LastOfKey(lines: seq<string>, decode: string -> Result<Json, PyError>, i: nat, n: nat)
    requires i < n <= |lines|
    requires forall j :: 0 <= j < n ==> LineEntry(lines[j], decode).Ok?
  {
    forall j :: i < j < n ==> LineEntry(lines[j], decode).value.0 != LineEntry(lines[i], decode).value.0
  }

  /** Storing line n's entry adds exactly its custom id to the keys. */
  lemma StoredKeysStep(lines: seq<string>, decode: string -> Result<Json, PyError>, dict: map<Json, Request>, n: nat)
    requires n < |lines|
    requires forall j :: 0 <= j <= n ==> LineEntry(lines[j], decode).Ok?
    requires dict.Keys == set j | 0 <= j < n :: LineEntry(lines[j], decode).value.0
    ensures dict[LineEntry(lines[n], decode).value.0 := LineEntry(lines[n], decode).value.1].Keys
            == set j | 0 <= j < n + 1 :: LineEntry(lines[j], decode).value.0
  {
    var k := LineEntry(lines[n], decode).value.0;
    var after := set j | 0 <= j < n + 1 :: LineEntry(lines[j], decode).value.0;
    assert after == dict.Keys + {k} by {
      forall x | x in after ensures x in dict.Keys + {k} {
        var j :| 0 <= j < n + 1 && LineEntry(lines[j], decode).value.0 == x;
        if j < n {
          assert x in dict.Keys;
        }
      }
      forall x | x in dict.Keys + {k} ensures x in after {
        if x == k {
          assert LineEntry(lines[n], decode).value.0 == x;
        } else {
          var j :| 0 <= j < n && LineEntry(lines[j], decode).value.0 == x;
          assert 0 <= j < n + 1;
        }
      }
    }
  }

  /**
   * Storing line n's entry keeps the request of every earlier line that
   * stays the last of its id, and stores line n's own request.
   */
  lemma StoredRequestsStep(lines: seq<string>, decode: string -> Result<Json, PyError>, dict: map<Json, Request>, n: nat)
    requires n < |lines|
    requires forall j :: 0 <= j <= n ==> LineEntry(lines[j], decode).Ok?
    requires dict.Keys == set j | 0 <= j < n :: LineEntry(lines[j], decode).value.0
    requires forall j :: 0 <= j < n && LastOfKey(lines, decode, j, n) ==>
               dict[LineEntry(lines[j], decode).value.0] == LineEntry(lines[j], decode).value.1
    ensures var after := dict[LineEntry(lines[n], decode).value.0 := LineEntry(lines[n], decode).value.1];
            forall j :: 0 <= j < n + 1 && LastOfKey(lines, decode, j, n + 1) ==>
              LineEntry(lines[j], decode).value.0 in after &&
              after[LineEntry(lines[j], decode).value.0] == LineEntry(lines[j], decode).value.1
  {
    var after := dict[LineEntry(lines[n], decode).value.0 := LineEntry(lines[n], decode).value.1];
    forall j | 0 <= j < n + 1 && LastOfKey(lines, decode, j, n + 1)
      ensures LineEntry(lines[j], decode).value.0 in after
      ensures after[LineEntry(lines[j], decode).value.0] == LineEntry(lines[j], decode).value.1
    {
      if j < n {
        assert LastOfKey(lines, decode, j, n);
        assert LineEntry(lines[n], decode).value.0 != LineEntry(lines[j], decode).value.0;
        assert LineEntry(lines[j], decode).value.0 in dict.Keys;
      }
    }
  }

  /**
   * `request_dict`, built line by line.  It fails with the first line that
   * does not decode or lacks a field; otherwise its keys are the lines'
   * custom ids and each maps to the request of the last line with that id.
   */
  method BuildRequestDict(lines: seq<string>, decode: string -> Result<Json, PyError>)
    returns (r: Result<map<Json, Request>, PyError>)
    ensures r.Ok? <==> forall i :: 0 <= i < |lines| ==> LineEntry(lines[i], decode).Ok?
    ensures r.Err? ==> exists i :: 0 <= i < |lines| && LineEntry(lines[i], decode) == Err(r.error) &&
                                   forall j :: 0 <= j < i ==> LineEntry(lines[j], decode).Ok?
    ensures r.Ok? ==> r.value.Keys == set i | 0 <= i < |lines| :: LineEntry(lines[i], decode).value.0
    ensures r.Ok? ==> forall i :: 0 <= i < |lines| && LastOfKey(lines, decode, i, |lines|) ==>
      r.value[LineEntry(lines[i], decode).value.0] == LineEntry(lines[i], decode).value.1
  {
    var dict: map<Json, Request> := map[];
    var n := 0;
    while n < |lines|
      invariant 0 <= n <= |lines|
      invariant forall j :: 0 <= j < n ==> LineEntry(lines[j], decode).Ok?
      invariant dict.Keys == set j | 0 <= j < n :: LineEntry(lines[j], decode).value.0
      invariant forall j :: 0 <= j < n && LastOfKey(lines, decode, j, n) ==>
        dict[LineEntry(lines[j], decode).value.0] == LineEntry(lines[j], decode).value.1
    {
      var entry := LineEntry(lines[n], decode);
      if entry.Err? {
        return Err(entry.error);
      }
      StoredKeysStep(lines, decode, dict, n);
      StoredRequestsStep(lines, decode, dict, n);
      dict := dict[entry.value.0 := entry.value.1];
      n := n + 1;
    }
    r := Ok(dict);
  }

  // -------------------------------------------------------------- results

  /**
   * The re-request loop for one custom id: each reply is one completion's
   * text (or the exception the call raised), tried in turn until one decodes
   * to a valid judgement.  A custom id missing from `request_dict` makes
   * every attempt raise, so none succeeds.
   */
  method Rerequest(id: Json, requests: map<Json, Request>, replies: seq<Result<string, PyError>>,
                   decode: string -> Result<Json, PyError>) returns (r: Option<Json>)
    ensures r.Some? ==> Valid(r.value) && Key(id).Ok? && Key(id).value in requests
    ensures r.Some? ==> exists i :: 0 <= i < |replies| && ReplyValid(replies[i], decode) &&
                                   r.value == decode(replies[i].value).value &&
                                   forall j :: 0 <= j < i ==> !ReplyValid(replies[j], decode)
    ensures r.None? <==> Key(id).Err? || Key(id).value !in requests ||
                         forall i :: 0 <= i < |replies| ==> !ReplyValid(replies[i], decode)
    ensures r == (if Key(id).Err? || Key(id).value !in requests then None else FirstPassing(replies, decode))
  {
    var key := Key(id);
    if key.Err? || key.value !in requests {
      return None;
    }
    var i := 0;
    while i < |replies|
      invariant 0 <= i <= |replies|
      invariant forall j :: 0 <= j < i ==> !ReplyValid(replies[j], decode)
    {
      if replies[i].Ok? {
        var json := decode(replies[i].value);
        if json.Ok? {
          var check := CheckResponseValid(json.value);
          if check.Ok? {
            FirstPassingAt(replies, decode, i);
            return Some(json.value);
          }
        }
      }
      i := i + 1;
    }
    FirstPassingNone(replies, decode);
    r := None;
  }

  /** The judgement of the first reply that passes, if any does. */
  function FirstPassing(replies: seq<Result<string, PyError>>, decode: string -> Result<Json, PyError>): Option<Json>
  {
    if |replies| == 0 then None
    else if ReplyValid(replies[0], decode) then Some(decode(replies[0].value).value)
    else FirstPassing(replies[1..], decode)
  }

  lemma {:induction false} FirstPassingAt(replies: seq<Result<string, PyError>>, decode: string -> Result<Json, PyError>, i: nat)
    requires i < |replies| && ReplyValid(replies[i], decode)
    requires forall j :: 0 <= j < i ==> !ReplyValid(replies[j], decode)
    ensures FirstPassing(replies, decode) == Some(decode(replies[i].value).value)
  {
    if i > 0 {
      assert !ReplyValid(replies[0], decode);
      FirstPassingAt(replies[1..], decode, i - 1);
    }
  }

  lemma {:induction false} FirstPassingNone(replies: seq<Result<string, PyError>>, decode: string -> Result<Json, PyError>)
    requires forall j :: 0 <= j < |replies| ==> !ReplyValid(replies[j], decode)
    ensures FirstPassing(replies, decode).None?
  {
    if |replies| > 0 {
      assert !ReplyValid(replies[0], decode);
      FirstPassingNone(replies[1..], decode);
    }
  }

  /**
   * What a result whose batch judgement fails ends with: nothing for an
   * unusable or unknown custom id, otherwise the id with the first passing
   * re-requested judgement, or nothing while none has passed.
   */
  function AskedAgain(id: Json, requests: map<Json, Request>, decode: string -> Result<Json, PyError>,
                      replies: Json -> seq<Result<string, PyError>>): Option<(Json, Json)>
  {
    if Key(id).Err? || Key(id).value !in requests then None
    else match FirstPassing(replies(id), decode)
         case None => None
         case Some(j) => Some((Key(id).value, j))
  }

  /** A re-request reply that ends the loop. */
  predicate ReplyValid(reply: Result<string, PyError>, decode: string -> Result<Json, PyError>)
  {
    reply.Ok? && decode(reply.value).Ok? && Valid(decode(reply.value).value)
  }

  /**
   * How a result file ends: its parse results and the number of results
   * asked for again; an exception outside the try block; or a result whose
   * re-request loop has not ended after the replies given.
   */
  datatype FileOutcome =
    | Parsed(results: map<Json, Json>, rerequested: nat)
    | Failed(error: PyError)
    | Stuck(index: nat)

  /** No result after the i-th has the i-th result's custom id. */
  predicate LastOfId(data: seq<Json>, i: nat, n: nat)
    requires i < n <= |data|
  {
    forall j :: i < j < n ==> IdKey(data[j]) != IdKey(data[i])
  }

  /**
   * `process_file` on a decoded result file.  There must be as many results
   * as requests.  Every stored judgement is valid, the stored keys are the
   * results' custom ids, a batch judgement that passes is kept unless a later
   * result has the same id, and the others are the ones asked for again.
   */
  method ProcessFile(data: seq<Json>, requests: map<Json, Request>, decode: string -> Result<Json, PyError>,
                     replies: Json -> seq<Result<string, PyError>>) returns (r: FileOutcome)
    ensures |data| != |requests| ==> r == Failed(AssertionError("len(data) == len(request_dict)"))
    ensures r.Parsed? ==> |data| == |requests|
    ensures r.Parsed? ==> forall k :: k in r.results ==> Valid(r.results[k])
    ensures r.Parsed? ==> forall i :: 0 <= i < |data| ==> IdKey(data[i]).Ok?
    ensures r.Parsed? ==> r.results.Keys == set i | 0 <= i < |data| && IdKey(data[i]).Ok? :: IdKey(data[i]).value
    ensures r.Parsed? ==> forall i :: 0 <= i < |data| && BatchAccepted(data[i], decode) && LastOfId(data, i, |data|) ==>
      r.results[IdKey(data[i]).value] == BatchReply(data[i], decode).value
    ensures r.Parsed? ==> r.rerequested == Count(data, dp => !BatchAccepted(dp, decode))
    ensures r.Failed? && |data| == |requests| ==>
      exists i :: 0 <= i < |data| && Sub(data[i], "custom_id") == Err(r.error)
    ensures r.Stuck? ==> r.index < |data| && !BatchAccepted(data[r.index], decode)
  {
    if |data| != |requests| {
      return Failed(AssertionError("len(data) == len(request_dict)"));
    }
    var results: map<Json, Json> := map[];
    var rerequested := 0;
    var i := 0;
    while i < |data|
      invariant 0 <= i <= |data|
      invariant forall k :: k in results ==> Valid(results[k])
      invariant forall j :: 0 <= j < i ==> IdKey(data[j]).Ok?
      invariant results.Keys == set j | 0 <= j < i && IdKey(data[j]).Ok? :: IdKey(data[j]).value
      invariant forall j :: 0 <= j < i && BatchAccepted(data[j], decode) && LastOfId(data, j, i) ==>
        results[IdKey(data[j]).value] == BatchReply(data[j], decode).value
      invariant rerequested == Count(data[..i], dp => !BatchAccepted(dp, decode))
    {
      var id := Sub(data[i], "custom_id");
      if id.Err? {
        assert Sub(data[i], "custom_id") == Err(id.error);
        return Failed(id.error);
      }
      var parsed := ParseResult(data[i], requests, decode, replies);
      ParseOutcomeSound(data[i], requests, decode, replies);
      if parsed.None? {
        assert !BatchAccepted(data[i], decode);
        return Stuck(i);
      }
      var (key, json) := parsed.value;
      assert IdKey(data[i]) == Ok(key) && Valid(json);
      CountSnoc(data, i, dp => !BatchAccepted(dp, decode));
      StoreStep(data, decode, i, results, key, json);
      results := results[key := json];
      rerequested := rerequested + if BatchAccepted(data[i], decode) then 0 else 1;
      i := i + 1;
    }
    assert data[..i] == data;
    r := Parsed(results, rerequested);
  }

  /**
   * What one result of the loop ends with: its id and batch judgement when
   * that passes, otherwise what asking again ends with.
   */
  function ParseOutcome(dp: Json, requests: map<Json, Request>, decode: string -> Result<Json, PyError>,
                        replies: Json -> seq<Result<string, PyError>>): Option<(Json, Json)>
    requires Sub(dp, "custom_id").Ok?
  {
    if BatchAccepted(dp, decode) then Some((IdKey(dp).value, BatchReply(dp, decode).value))
    else AskedAgain(Sub(dp, "custom_id").value, requests, decode, replies)
  }

  /** The first passing reply is a valid judgement. */
  lemma {:induction false} FirstPassingValid(replies: seq<Result<string, PyError>>, decode: string -> Result<Json, PyError>)
    ensures FirstPassing(replies, decode).Some? ==> Valid(FirstPassing(replies, decode).value)
  {
    if |replies| > 0 && !ReplyValid(replies[0], decode) {
      FirstPassingValid(replies[1..], decode);
    }
  }

  /**
   * Whatever a result ends with is stored under the result's own custom id
   * and is a valid judgement; a passing batch judgement is always kept.
   */
  lemma ParseOutcomeSound(dp: Json, requests: map<Json, Request>, decode: string -> Result<Json, PyError>,
                          replies: Json -> seq<Result<string, PyError>>)
    requires Sub(dp, "custom_id").Ok?
    ensures var r := ParseOutcome(dp, requests, decode, replies);
            r.Some? ==> IdKey(dp) == Ok(r.value.0) && Valid(r.value.1)
    ensures BatchAccepted(dp, decode) ==>
              ParseOutcome(dp, requests, decode, replies) == Some((IdKey(dp).value, BatchReply(dp, decode).value))
  {
    FirstPassingValid(replies(Sub(dp, "custom_id").value), decode);
  }

  /**
   * One result of the loop: its batch judgement when that passes, otherwise
   * the judgement the re-request loop ends with, or None while it has not.
   */
  method ParseResult(dp: Json, requests: map<Json, Request>, decode: string -> Result<Json, PyError>,
                     replies: Json -> seq<Result<string, PyError>>) returns (r: Option<(Json, Json)>)
    requires Sub(dp, "custom_id").Ok?
    ensures r == ParseOutcome(dp, requests, decode, replies)
  {
    var id := Sub(dp, "custom_id").value;
    var reply := BatchReply(dp, decode);
    if reply.Ok? {
      var check := CheckResponseValid(reply.value);
      if check.Ok? && Key(id).Ok? {
        return Some((Key(id).value, reply.value));
      }
    }
    var again := Rerequest(id, requests, replies(id), decode);
    if again.None? {
      return None;
    }
    r := Some((Key(id).value, again.value));
  }

  /** Counting one more element of a prefix. */
  lemma CountSnoc<T>(s: seq<T>, i: nat, p: T -> bool)
    requires i < |s|
    ensures Count(s[..i + 1], p) == Count(s[..i], p) + if p(s[i]) then 1 else 0
  {
    assert s[..i + 1] == s[..i] + [s[i]];
    CountAppend(s[..i], [s[i]], p);
  }

  /** Storing the i-th result keeps the key set and the kept batch judgements. */
  lemma StoreStep(data: seq<Json>, decode: string -> Result<Json, PyError>, i: nat,
                  results: map<Json, Json>, key: Json, json: Json)
    requires i < |data| && IdKey(data[i]) == Ok(key)
    requires forall j :: 0 <= j < i ==> IdKey(data[j]).Ok?
    requires results.Keys == set j | 0 <= j < i && IdKey(data[j]).Ok? :: IdKey(data[j]).value
    requires forall j :: 0 <= j < i && BatchAccepted(data[j], decode) && LastOfId(data, j, i) ==>
      results[IdKey(data[j]).value] == BatchReply(data[j], decode).value
    requires BatchAccepted(data[i], decode) ==> json == BatchReply(data[i], decode).value
    ensures forall j :: 0 <= j < i + 1 ==> IdKey(data[j]).Ok?
    ensures results[key := json].Keys == set j | 0 <= j < i + 1 && IdKey(data[j]).Ok? :: IdKey(data[j]).value
    ensures forall j :: 0 <= j < i + 1 && BatchAccepted(data[j], decode) && LastOfId(data, j, i + 1) ==>
      results[key := json][IdKey(data[j]).value] == BatchReply(data[j], decode).value
  {
    forall j | 0 <= j < i + 1 && BatchAccepted(data[j], decode) && LastOfId(data, j, i + 1)
      ensures results[key := json][IdKey(data[j]).value] == BatchReply(data[j], decode).value
    {
      if j < i {
        assert LastOfId(data, j, i);
      }
    }
  }

  /**
   * When the results' custom ids are distinct, a parsed file has exactly one
   * judgement per result, and so one per request.
   */
  lemma OneJudgementPerResult(data: seq<Json>, requests: map<Json, Request>, results: map<Json, Json>)
    requires |data| == |requests|
    requires forall i :: 0 <= i < |data| ==> IdKey(data[i]).Ok?
    requires results.Keys == set i | 0 <= i < |data| && IdKey(data[i]).Ok? :: IdKey(data[i]).value
    requires forall i, j :: 0 <= i < j < |data| ==> IdKey(data[i]) != IdKey(data[j])
    ensures |results| == |requests|
  {
    var keys := seq(|data|, i requires 0 <= i < |data| => IdKey(data[i]).value);
    assert forall i, j :: 0 <= i < j < |keys| ==> keys[i] != keys[j] by {
      forall i, j | 0 <= i < j < |keys| ensures keys[i] != keys[j] {
        assert IdKey(data[i]) != IdKey(data[j]);
      }
    }
    DistinctCard(keys);
    forall x | x in results.Keys ensures x in keys {
      var i :| 0 <= i < |data| && IdKey(data[i]).Ok? && IdKey(data[i]).value == x;
      assert keys[i] == x;
    }
    assert results.Keys == set x | x in keys;
  }
}
