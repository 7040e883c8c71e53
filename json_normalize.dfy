// The recursive "make it JSON-serialisable" normalisation that the
// intermediate-artifact store and the caption stage apply before writing a
// dict or list with json.dump.
module JsonNormalize {
  import opened Common

  /** A hashable dict key as the modelled code meets it. */
  datatype PyKey =
    | KStr(s: string)
    | KInt(i: int)
    | KBool(b: bool)
    | KNone
    | KOpaque(repr: string)   // tuples, frozensets, objects: json.dumps refuses them

  /**
   * The Python values that reach the normaliser.  A dict is its entries in
   * insertion order (a key written twice keeps the later value, as a dict
   * comprehension does).  `PObject` is an instance with a `__dict__`,
   * `PProxy` a multiprocessing DictProxy, `PIterable` any other iterable
   * that is not str or bytes (a set, a generator), and `POpaque` everything
   * else, bytes included, carried with its `str()` text.
   */
  datatype PyValue =
    | PNone
    | PBool(b: bool)
    | PInt(i: int)
    | PFloat(r: real)
    | PStr(s: string)
    | PList(items: seq<PyValue>)
    | PTuple(items: seq<PyValue>)
    | PDict(entries: seq<(PyKey, PyValue)>)
    | PProxy(entries: seq<(PyKey, PyValue)>)
    | PObject(attrs: seq<(string, PyValue)>)
    | PIterable(items: seq<PyValue>)
    | POpaque(repr: string)

  /** True exactly when `json.dumps(v)` succeeds. */
  predicate Serializable(v: PyValue)
    decreases v
  {
    match v
    case PNone => true
    case PBool(_) => true
    case PInt(_) => true
    case PFloat(_) => true
    case PStr(_) => true
    case PList(items) => forall i :: 0 <= i < |items| ==> Serializable(items[i])
    case PTuple(items) => forall i :: 0 <= i < |items| ==> Serializable(items[i])
    case PDict(entries) =>
      forall i :: 0 <= i < |entries| ==> !entries[i].0.KOpaque? && Serializable(entries[i].1)
    case PProxy(_) => false
    case PObject(_) => false
    case PIterable(_) => false
    case POpaque(_) => false
  }

  /** `str(k)` for a dict key. */
  function KeyStr(k: PyKey): string
  {
    match k
    case KStr(s) => s
    case KInt(i) => IntToString(i)
    case KBool(b) => if b then "True" else "False"
    case KNone => "None"
    case KOpaque(r) => r
  }

  /**
   * `_make_json_serializable`: the identity on values json.dumps accepts;
   * otherwise proxies and dicts become dicts with `str()` keys, instances
   * become dicts of their attributes, lists, tuples and other iterables
   * become lists, and anything else becomes its `str()` text.  Whatever
   * the input, the output is accepted by json.dumps.
   */
  function Normalise(v: PyValue): (r: PyValue)
    ensures Serializable(r)
    ensures Serializable(v) ==> r == v
    decreases v, 1, 0
  {
    if Serializable(v) then v
    else match v
      case PProxy(entries) => PDict(NormaliseEntries(v, entries))
      case PObject(attrs) => PDict(NormaliseAttrs(v, attrs))
      case PDict(entries) => PDict(NormaliseEntries(v, entries))
      case PList(items) => PList(NormaliseItems(v, items))
      case PTuple(items) => PList(NormaliseItems(v, items))
      case PIterable(items) => PList(NormaliseItems(v, items))
      case POpaque(repr) => PStr(repr)
      case _ => PNone
  }

  /** `{str(k): normalise(v) for k, v in entries}`. */
  function NormaliseEntries(ghost parent: PyValue, entries: seq<(PyKey, PyValue)>): (r: seq<(PyKey, PyValue)>)
    requires forall i :: 0 <= i < |entries| ==> entries[i].1 < parent
    ensures |r| == |entries|
    ensures forall i :: 0 <= i < |r| ==> r[i] == (KStr(KeyStr(entries[i].0)), Normalise(entries[i].1))
    decreases parent, 0, |entries|
  {
    if |entries| == 0 then []
    else [(KStr(KeyStr(entries[0].0)), Normalise(entries[0].1))] + NormaliseEntries(parent, entries[1..])
  }

  /** `{k: normalise(v) for k, v in obj.__dict__.items()}`. */
  function NormaliseAttrs(ghost parent: PyValue, attrs: seq<(string, PyValue)>): (r: seq<(PyKey, PyValue)>)
    requires forall i :: 0 <= i < |attrs| ==> attrs[i].1 < parent
    ensures |r| == |attrs|
    ensures forall i :: 0 <= i < |r| ==> r[i] == (KStr(attrs[i].0), Normalise(attrs[i].1))
    decreases parent, 0, |attrs|
  {
    if |attrs| == 0 then []
    else [(KStr(attrs[0].0), Normalise(attrs[0].1))] + NormaliseAttrs(parent, attrs[1..])
  }

  /** `[normalise(item) for item in items]`. */
  function NormaliseItems(ghost parent: PyValue, items: seq<PyValue>): (r: seq<PyValue>)
    requires forall i :: 0 <= i < |items| ==> items[i] < parent
    ensures |r| == |items|
    ensures forall i :: 0 <= i < |r| ==> r[i] == Normalise(items[i])
    decreases parent, 0, |items|
  {
    if |items| == 0 then []
    else [Normalise(items[0])] + NormaliseItems(parent, items[1..])
  }

  /** The JSON text `json.dump` writes for a key of a serialisable dict. */
  function JsonKey(k: PyKey): string
  {
    match k
    case KStr(s) => s
    case KInt(i) => IntToString(i)
    case KBool(b) => if b then "true" else "false"
    case KNone => "null"
    case KOpaque(r) => r
  }

  /** What `json.dump` writes for a serialisable value. */
  function ToJson(v: PyValue): Json
    requires Serializable(v)
    decreases v
  {
    match v
    case PNone => JNull
    case PBool(b) => JBool(b)
    case PInt(i) => JNum(i as real)
    case PFloat(r) => JNum(r)
    case PStr(s) => JStr(s)
    case PList(items) => JArr(ItemsToJson(v, items))
    case PTuple(items) => JArr(ItemsToJson(v, items))
    case PDict(entries) => JObj(EntriesToMap(v, entries))
  }

  function ItemsToJson(ghost parent: PyValue, items: seq<PyValue>): (r: seq<Json>)
    requires forall i :: 0 <= i < |items| ==> items[i] < parent && Serializable(items[i])
    ensures |r| == |items|
    decreases parent, |items|
  {
    if |items| == 0 then [] else [ToJson(items[0])] + ItemsToJson(parent, items[1..])
  }

  function EntriesToMap(ghost parent: PyValue, entries: seq<(PyKey, PyValue)>): (m: map<string, Json>)
    requires forall i :: 0 <= i < |entries| ==> entries[i].1 < parent && Serializable(entries[i].1)
    ensures m.Keys == set i | 0 <= i < |entries| :: JsonKey(entries[i].0)
    decreases parent, |entries|
  {
    if |entries| == 0 then map[]
    else
      var last := entries[|entries| - 1];
      var m0 := EntriesToMap(parent, entries[..|entries| - 1]);
      m0[JsonKey(last.0) := ToJson(last.1)]
  }

  /** The JSON document `_atomic_write` stores for dict or list content. */
  function Encode(v: PyValue): Json
  {
    ToJson(Normalise(v))
  }

  /** Normalising twice changes nothing: the output is already serialisable. */
  lemma NormaliseIdempotent(v: PyValue)
    ensures Normalise(Normalise(v)) == Normalise(v)
  {
  }

  /**
   * A dict that json.dumps refuses comes out with every key stringified by
   * `str()` and nothing dropped: the written object's keys are exactly the
   * `str()` texts of the input's keys.
   */
  lemma {:induction false} DictKeysStringified(entries: seq<(PyKey, PyValue)>)
    requires !Serializable(PDict(entries))
    ensures Normalise(PDict(entries)).PDict?
    ensures Encode(PDict(entries)).JObj?
    ensures Encode(PDict(entries)).fields.Keys == set i | 0 <= i < |entries| :: KeyStr(entries[i].0)
  {
    var r := Normalise(PDict(entries));
    var out := NormaliseEntries(PDict(entries), entries);
    assert r == PDict(out);
    assert (set i | 0 <= i < |out| :: JsonKey(out[i].0)) == (set i | 0 <= i < |entries| :: KeyStr(entries[i].0)) by {
      forall i | 0 <= i < |out| ensures JsonKey(out[i].0) == KeyStr(entries[i].0) {
      }
    }
  }

  /** Bytes and other leaf objects json.dumps refuses are written as their `str()` text. */
  lemma OpaqueBecomesText(repr: string)
    ensures Encode(POpaque(repr)) == JStr(repr)
  {
  }

  /** A list, tuple or other iterable keeps its length and order; each element is normalised. */
  lemma SequenceKeepsOrder(v: PyValue, i: nat)
    requires v.PList? || v.PTuple? || v.PIterable?
    requires !Serializable(v)
    requires i < |v.items|
    ensures Normalise(v).PList? && |Normalise(v).items| == |v.items|
    ensures Normalise(v).items[i] == Normalise(v.items[i])
  {
  }
}
