// Shared vocabulary of the model: optional values, results carrying the
// error a Python or TypeScript function would raise, JSON documents, and the
// handful of string operations (split, suffix tests, zero padding, decimal
// rendering) that the pipeline's bookkeeping is built from.
module Common {

  datatype Option<T> = None | Some(value: T)

  datatype Result<T, E> = Ok(value: T) | Err(error: E)
  {
    predicate IsOk() { this.Ok? }
  }

  /** The exception classes the modelled code raises or catches. */
  datatype PyError =
    | ValueError(msg: string)
    | RuntimeError(msg: string)
    | FileNotFoundError(msg: string)
    | KeyError(key: string)
    | AssertionError(msg: string)
    | IOError(msg: string)
    | AttributeError(name: string)
    | TypeError(msg: string)
    | StopIteration(msg: string)
    | ZeroDivisionError(msg: string)
    | IndexError(msg: string)

  /**
   * A JSON document.  Numbers are kept as reals (Python's json module reads
   * both `1` and `1.0`); objects are maps, so key order is not modelled.
   */
  datatype Json =
    | JNull
    | JBool(b: bool)
    | JNum(n: real)
    | JStr(s: string)
    | JArr(items: seq<Json>)
    | JObj(fields: map<string, Json>)

  function Int(n: int): Json { JNum(n as real) }

  /** dict.get(key, default) on a JSON object; anything else yields default. */
  function GetField(doc: Json, key: string, default: Json): (r: Json)
    ensures doc.JObj? && key in doc.fields ==> r == doc.fields[key]
    ensures !(doc.JObj? && key in doc.fields) ==> r == default
  {
    if doc.JObj? && key in doc.fields then doc.fields[key] else default
  }

  // ---------------------------------------------------------------- strings

  predicate IsAbsolute(p: string) { |p| > 0 && p[0] == '/' }

  /**
   * POSIX `os.path.join(a, b)`: an absolute `b` discards `a`; otherwise a
   * separator is inserted unless `a` is empty or already ends with one.
   */
  function PathJoin(a: string, b: string): string
  {
    if IsAbsolute(b) then b
    else if |a| == 0 || a[|a| - 1] == '/' then a + b
    else a + "/" + b
  }

  predicate StartsWith(s: string, prefix: string) { prefix <= s }

  predicate EndsWith(s: string, suffix: string)
  {
    |suffix| <= |s| && s[|s| - |suffix|..] == suffix
  }

  /** Python's `sub in s` / JavaScript's `s.includes(sub)`. */
  predicate Contains(s: string, sub: string)
    decreases |s|
  {
    sub <= s || (|s| > 0 && Contains(s[1..], sub))
  }

  lemma {:induction false} ContainsAt(s: string, sub: string, i: nat)
    requires i + |sub| <= |s| && s[i..i + |sub|] == sub
    ensures Contains(s, sub)
    decreases i
  {
    if i == 0 {
      assert s[..|sub|] == sub;
    } else {
      assert s[1..][i - 1..i - 1 + |sub|] == s[i..i + |sub|];
      ContainsAt(s[1..], sub, i - 1);
    }
  }

  /** A text lacking one of the characters of `sub` does not contain `sub`. */
  lemma {:induction false} NotContainsChar(s: string, sub: string, c: char)
    requires c in sub && c !in s
    ensures !Contains(s, sub)
    decreases |s|
  {
    if |s| > 0 {
      NotContainsChar(s[1..], sub, c);
    }
  }

  lemma ContainsSelf(s: string)
    ensures Contains(s, s)
  {
    assert s <= s;
  }

  /** Python's `s.split(c)` for a one-character separator. */
  function Split(s: string, c: char): (r: seq<string>)
    ensures |r| >= 1
    ensures forall k :: 0 <= k < |r| ==> c !in r[k]
    ensures c !in s ==> r == [s]
    ensures r[0] <= s
  {
    if |s| == 0 then [""]
    else
      var rest := Split(s[1..], c);
      assert c !in s ==> c !in s[1..] && rest == [s[1..]] && s == [s[0]] + s[1..];
      if s[0] == c then [""] + rest
      else [[s[0]] + rest[0]] + rest[1..]
  }

  /** Splitting after a field free of the separator yields that field, then the rest's fields. */
  lemma {:induction false} SplitConcat(a: string, b: string, c: char)
    requires c !in a
    ensures Split(a + [c] + b, c) == [a] + Split(b, c)
  {
    if |a| > 0 {
      assert (a + [c] + b)[1..] == a[1..] + [c] + b;
      SplitConcat(a[1..], b, c);
      assert [a[0]] + a[1..] == a;
    } else {
      assert (a + [c] + b)[1..] == b;
    }
  }

  /** Splitting before a last field free of the separator yields the front's fields, then that field. */
  lemma {:induction false} SplitAppend(a: string, b: string, c: char)
    requires c !in b
    ensures Split(a + [c] + b, c) == Split(a, c) + [b]
  {
    if |a| == 0 {
      assert (a + [c] + b)[1..] == b;
    } else {
      assert (a + [c] + b)[1..] == a[1..] + [c] + b;
      SplitAppend(a[1..], b, c);
    }
  }

  /** Three separator-free fields joined by the separator split back into themselves. */
  lemma SplitThree(x: string, y: string, z: string, c: char)
    requires c !in x && c !in y && c !in z
    ensures Split(x + [c] + y + [c] + z, c) == [x, y, z]
  {
    var rest := y + [c] + z;
    assert x + [c] + y + [c] + z == x + [c] + rest;
    SplitConcat(x, rest, c);
    SplitConcat(y, z, c);
  }

  /** Four separator-free fields joined by the separator split back into themselves. */
  lemma SplitFour(w: string, x: string, y: string, z: string, c: char)
    requires c !in w && c !in x && c !in y && c !in z
    ensures Split(w + [c] + x + [c] + y + [c] + z, c) == [w, x, y, z]
  {
    var rest := x + [c] + y + [c] + z;
    assert w + [c] + x + [c] + y + [c] + z == w + [c] + rest;
    SplitConcat(w, rest, c);
    SplitThree(x, y, z, c);
  }

  function Join(parts: seq<string>, sep: string): string
  {
    if |parts| == 0 then ""
    else if |parts| == 1 then parts[0]
    else parts[0] + sep + Join(parts[1..], sep)
  }

  lemma {:induction false} JoinSplit(s: string, c: char)
    ensures Join(Split(s, c), [c]) == s
  {
    if |s| > 0 {
      var rest := Split(s[1..], c);
      JoinSplit(s[1..], c);
      if s[0] == c {
        assert s == [c] + s[1..];
      } else {
        assert Split(s, c) == [[s[0]] + rest[0]] + rest[1..];
        if |rest| == 1 {
          assert s == [s[0]] + s[1..];
        } else {
          assert Join(rest, [c]) == rest[0] + [c] + Join(rest[1..], [c]);
          assert ([[s[0]] + rest[0]] + rest[1..])[1..] == rest[1..];
          assert s == [s[0]] + s[1..];
        }
      }
    }
  }

  /** Index of the last occurrence of `c` in `s`, if any. */
  function LastIndexOf<T(==)>(s: seq<T>, c: T): (r: Option<nat>)
    ensures r.None? <==> c !in s
    ensures r.Some? ==> r.value < |s| && s[r.value] == c && c !in s[r.value + 1..]
  {
    if |s| == 0 then None
    else if s[|s| - 1] == c then Some(|s| - 1)
    else
      var r := LastIndexOf(s[..|s| - 1], c);
      assert s == s[..|s| - 1] + [s[|s| - 1]];
      if r.Some? then
        assert s[r.value + 1..] == s[..|s| - 1][r.value + 1..] + [s[|s| - 1]];
        r
      else r
  }

  /**
   * Python's `s.rsplit(c, 1)`: the text before and after the last `c`, or
   * `[s]` alone when `c` does not occur.
   */
  function RSplitOnce(s: string, c: char): (r: seq<string>)
    ensures c !in s ==> r == [s]
    ensures c in s ==> |r| == 2 && r[0] + [c] + r[1] == s && c !in r[1]
  {
    match LastIndexOf(s, c)
    case None => [s]
    case Some(i) =>
      assert s == s[..i] + [c] + s[i + 1..];
      [s[..i], s[i + 1..]]
  }

  /** `os.path.basename`: the text after the last '/'. */
  function Basename(path: string): (r: string)
    ensures |r| <= |path| && r == path[|path| - |r|..] && '/' !in r
    ensures '/' !in path ==> r == path
  {
    var parts := RSplitOnce(path, '/');
    var r := parts[|parts| - 1];
    assert r == path[|path| - |r|..];
    r
  }

  /** The ASCII whitespace `str.strip()` removes. */
  predicate IsSpace(ch: char) { ch == ' ' || ch == '\t' || ch == '\n' || ch == '\r' || ch == '\U{000B}' || ch == '\U{000C}' }

  function StripLeft(s: string): (r: string)
    ensures |r| <= |s| && r == s[|s| - |r|..]
    ensures |r| > 0 ==> !IsSpace(r[0])
  {
    if |s| > 0 && IsSpace(s[0]) then StripLeft(s[1..]) else s
  }

  function StripRight(s: string): (r: string)
    ensures |r| <= |s| && r == s[..|r|]
    ensures |r| > 0 ==> !IsSpace(r[|r| - 1])
  {
    if |s| > 0 && IsSpace(s[|s| - 1]) then StripRight(s[..|s| - 1]) else s
  }

  /** `str.strip()` on ASCII whitespace. */
  function Strip(s: string): (r: string)
    ensures |r| > 0 ==> !IsSpace(r[0]) && !IsSpace(r[|r| - 1])
    ensures |s| > 0 && !IsSpace(s[0]) && !IsSpace(s[|s| - 1]) ==> r == s
  {
    StripRight(StripLeft(s))
  }

  /** ASCII lower-casing (`str.lower()` / `toLowerCase()` on ASCII text). */
  function LowerChar(ch: char): char
  {
    if 'A' <= ch <= 'Z' then (ch as int + 32) as char else ch
  }

  function ToLower(s: string): (r: string)
    ensures |r| == |s|
    ensures forall k :: 0 <= k < |s| ==> r[k] == LowerChar(s[k])
  {
    if |s| == 0 then "" else [LowerChar(s[0])] + ToLower(s[1..])
  }

  /** Text without upper-case letters is its own lower-casing. */
  lemma LowerUnchanged(s: string)
    requires forall k :: 0 <= k < |s| ==> !('A' <= s[k] <= 'Z')
    ensures ToLower(s) == s
  {
    var r := ToLower(s);
    assert forall k :: 0 <= k < |s| ==> r[k] == s[k];
  }

  /** Removes every occurrence of `ch` (`s.replace(ch, "")`). */
  function RemoveChar(s: string, ch: char): (r: string)
    ensures ch !in r
    ensures forall x :: x != ch ==> multiset(r)[x] == multiset(s)[x]
    ensures ch !in s ==> r == s
  {
    if |s| == 0 then ""
    else
      assert s == [s[0]] + s[1..];
      if s[0] == ch then RemoveChar(s[1..], ch) else [s[0]] + RemoveChar(s[1..], ch)
  }

  /**
   * Python's `s.replace(sub, "")`: scans left to right and drops every
   * non-overlapping occurrence of `sub`; a text without `sub` is kept.
   */
  function RemoveAll(s: string, sub: string): (r: string)
    requires |sub| > 0
    ensures |r| <= |s|
    ensures forall x :: multiset(r)[x] <= multiset(s)[x]
    ensures !Contains(s, sub) ==> r == s
    decreases |s|
  {
    if |s| < |sub| then s
    else if s[..|sub|] == sub then
      assert s == s[..|sub|] + s[|sub|..];
      RemoveAll(s[|sub|..], sub)
    else
      assert s == [s[0]] + s[1..];
      [s[0]] + RemoveAll(s[1..], sub)
  }

  function Repeat(ch: char, n: nat): (r: string)
    ensures |r| == n && forall k :: 0 <= k < n ==> r[k] == ch
  {
    if n == 0 then "" else [ch] + Repeat(ch, n - 1)
  }

  /**
   * Python's `s.zfill(width)`: pads with '0' on the left up to `width`,
   * after a leading sign if there is one.
   */
  function ZFill(s: string, width: nat): (r: string)
    ensures |r| == if |s| >= width then |s| else width
    ensures |s| >= width ==> r == s
    ensures |s| < width && (|s| == 0 || s[0] !in "+-") ==> r == Repeat('0', width - |s|) + s
  {
    if |s| >= width then s
    else if |s| > 0 && s[0] in "+-" then [s[0]] + Repeat('0', width - |s|) + s[1..]
    else Repeat('0', width - |s|) + s
  }

  // ------------------------------------------------------- decimal numbers

  predicate IsDigit(ch: char) { '0' <= ch <= '9' }

  function DigitChar(d: nat): (ch: char)
    requires d < 10
    ensures IsDigit(ch)
  {
    ('0' as int + d) as char
  }

  function DigitValue(ch: char): nat
    requires IsDigit(ch)
  {
    ch as int - '0' as int
  }

  /** `str(n)` for a natural number. */
  function NatToString(n: nat): (r: string)
    ensures |r| >= 1
    ensures forall k :: 0 <= k < |r| ==> IsDigit(r[k])
    ensures |r| > 1 ==> r[0] != '0'
    decreases n
  {
    if n < 10 then [DigitChar(n)] else NatToString(n / 10) + [DigitChar(n % 10)]
  }

  /** Value of a non-empty string of decimal digits. */
  function DigitsValue(s: string): nat
    requires forall k :: 0 <= k < |s| ==> IsDigit(s[k])
  {
    if |s| == 0 then 0 else DigitsValue(s[..|s| - 1]) * 10 + DigitValue(s[|s| - 1])
  }

  predicate AllDigits(s: string) { forall k :: 0 <= k < |s| ==> IsDigit(s[k]) }

  /**
   * Python's `int(s)` on the strings the modelled code reads: an optional
   * sign followed by one or more decimal digits.  Anything else is a
   * ValueError, so the result is None.
   */
  function ParseInt(s: string): (r: Option<int>)
    ensures r.Some? <==> (|s| > 0 && AllDigits(s)) || (|s| > 1 && s[0] in "+-" && AllDigits(s[1..]))
  {
    if |s| > 0 && AllDigits(s) then Some(DigitsValue(s))
    else if |s| > 1 && s[0] == '-' && AllDigits(s[1..]) then Some(0 - DigitsValue(s[1..]) as int)
    else if |s| > 1 && s[0] == '+' && AllDigits(s[1..]) then Some(DigitsValue(s[1..]))
    else None
  }

  lemma {:induction false} DigitsValueOfNat(n: nat)
    ensures DigitsValue(NatToString(n)) == n
    decreases n
  {
    if n >= 10 {
      var s := NatToString(n);
      assert s[..|s| - 1] == NatToString(n / 10);
      DigitsValueOfNat(n / 10);
    }
  }

  /** Rendering a count and reading it back is the identity. */
  lemma ParseNatToString(n: nat)
    ensures ParseInt(NatToString(n)) == Some(n)
  {
    DigitsValueOfNat(n);
  }

  lemma {:induction false} NatToStringInjective(a: nat, b: nat)
    requires NatToString(a) == NatToString(b)
    ensures a == b
  {
    DigitsValueOfNat(a);
    DigitsValueOfNat(b);
  }

  /** `str(n)` for any integer. */
  function IntToString(n: int): (r: string)
    ensures |r| >= 1
  {
    if n < 0 then "-" + NatToString(-n) else NatToString(n)
  }

  // ------------------------------------------------------ small sequences

  /** `order` is the iteration order of a dict with the keys of `m`: each key once. */
  predicate KeyOrder<K, V>(order: seq<K>, m: map<K, V>)
  {
    (forall i, j :: 0 <= i < j < |order| ==> order[i] != order[j]) &&
    (forall k :: k in m ==> k in order) && (forall i :: 0 <= i < |order| ==> order[i] in m)
  }

  lemma {:induction false} DistinctCard<K>(order: seq<K>)
    requires forall i, j :: 0 <= i < j < |order| ==> order[i] != order[j]
    ensures |set x | x in order| == |order|
  {
    if |order| > 0 {
      var front := order[..|order| - 1];
      DistinctCard(front);
      assert (set x | x in order) == (set x | x in front) + {order[|order| - 1]};
    }
  }

  /** A dict has as many entries as its iteration order has elements. */
  lemma KeyOrderLength<K, V>(order: seq<K>, m: map<K, V>)
    requires KeyOrder(order, m)
    ensures |order| == |m|
  {
    DistinctCard(order);
    assert (set x | x in order) == m.Keys;
  }

  /**
   * A dict filled by looking each key up in turn, as the loops that build a
   * result per retrieved id do: the first key whose lookup fails stops the
   * loop with its error; otherwise every key maps to its looked-up value.
   */
  method CollectValues<K, V, E>(keys: seq<K>, lookup: K -> Result<V, E>) returns (r: Result<map<K, V>, E>)
    ensures r.Ok? <==> forall i :: 0 <= i < |keys| ==> lookup(keys[i]).Ok?
    ensures r.Ok? ==> r.value.Keys == set i | 0 <= i < |keys| :: keys[i]
    ensures r.Ok? ==> forall k :: k in r.value ==> lookup(k) == Ok(r.value[k])
    ensures r.Err? ==> exists i :: 0 <= i < |keys| && lookup(keys[i]) == Err(r.error) &&
                                   forall j :: 0 <= j < i ==> lookup(keys[j]).Ok?
  {
    var result: map<K, V> := map[];
    var i := 0;
    while i < |keys|
      invariant 0 <= i <= |keys|
      invariant forall j :: 0 <= j < i ==> lookup(keys[j]).Ok?
      invariant result.Keys == set j | 0 <= j < i :: keys[j]
      invariant forall k :: k in result ==> lookup(k) == Ok(result[k])
    {
      var looked := lookup(keys[i]);
      if looked.Err? {
        return Err(looked.error);
      }
      result := result[keys[i] := looked.value];
      i := i + 1;
    }
    r := Ok(result);
  }

  /** The entries of `m` whose keys occur in `ks`. */
  function Restrict<K(!new), V>(m: map<K, V>, ks: seq<K>): (r: map<K, V>)
    ensures forall k :: k in r <==> k in m && k in ks
  {
    map k | k in m && k in ks :: m[k]
  }

  /** Copying one more entry of `m` over `base` extends the restriction by that key. */
  lemma RestrictStep<K(!new), V>(base: map<K, V>, m: map<K, V>, ks: seq<K>, x: K)
    requires x in m
    ensures (base + Restrict(m, ks))[x := m[x]] == base + Restrict(m, ks + [x])
  {
    assert forall k :: k in ks + [x] <==> k in ks || k == x;
  }

  /** Restricting to a sequence that holds every key changes nothing. */
  lemma RestrictAll<K(!new), V>(m: map<K, V>, ks: seq<K>)
    requires forall k :: k in m ==> k in ks
    ensures Restrict(m, ks) == m
  {
  }


  /** `(a + 1) * b == a * b + b`, for steps the solver's nonlinear arithmetic misses. */
  lemma MulSucc(a: int, b: int)
    ensures (a + 1) * b == a * b + b
  {
  }

  function Count<T>(s: seq<T>, p: T -> bool): (r: nat)
    ensures r <= |s|
  {
    if |s| == 0 then 0 else (if p(s[0]) then 1 else 0) + Count(s[1..], p)
  }

  lemma {:induction false} CountAppend<T>(a: seq<T>, b: seq<T>, p: T -> bool)
    ensures Count(a + b, p) == Count(a, p) + Count(b, p)
  {
    if |a| > 0 {
      assert (a + b)[1..] == a[1..] + b;
      CountAppend(a[1..], b, p);
    } else {
      assert a + b == b;
    }
  }

  function Filter<T>(s: seq<T>, p: T -> bool): (r: seq<T>)
    ensures |r| == Count(s, p)
    ensures forall x :: x in r ==> x in s && p(x)
    ensures forall x :: x in s && p(x) ==> x in r
  {
    if |s| == 0 then [] else (if p(s[0]) then [s[0]] else []) + Filter(s[1..], p)
  }

  function Sum(s: seq<int>): int
  {
    if |s| == 0 then 0 else s[0] + Sum(s[1..])
  }

  lemma {:induction false} SumAppend(a: seq<int>, b: seq<int>)
    ensures Sum(a + b) == Sum(a) + Sum(b)
  {
    if |a| > 0 {
      assert (a + b)[1..] == a[1..] + b;
      SumAppend(a[1..], b);
    } else {
      assert a + b == b;
    }
  }

  /** Consecutive slices `s[i:i+size]` for i in range(0, len(s), size). */
  function Chunks<T>(s: seq<T>, size: nat): (r: seq<seq<T>>)
    requires size > 0
    ensures |s| == 0 <==> |r| == 0
    ensures forall k :: 0 <= k < |r| ==> 0 < |r[k]| <= size
    decreases |s|
  {
    if |s| == 0 then []
    else if |s| <= size then [s]
    else [s[..size]] + Chunks(s[size..], size)
  }

  /**
   * A success or hit rate: the part over the total, 0 when the total is 0;
   * always within [0, 1].
   */
  function Rate(part: nat, total: nat): (r: real)
    requires part <= total
    ensures 0.0 <= r <= 1.0
    ensures total == 0 ==> r == 0.0
    ensures total > 0 ==> r * (total as real) == part as real
  {
    if total == 0 then 0.0 else part as real / total as real
  }

  function Flatten<T>(ss: seq<seq<T>>): seq<T>
  {
    if |ss| == 0 then [] else ss[0] + Flatten(ss[1..])
  }

  lemma {:induction false} FlattenAppend<T>(ss: seq<seq<T>>, s: seq<T>)
    ensures Flatten(ss + [s]) == Flatten(ss) + s
  {
    if |ss| > 0 {
      assert (ss + [s])[1..] == ss[1..] + [s];
      FlattenAppend(ss[1..], s);
    }
  }

  /** Concatenating the chunks gives back the input, in order. */
  lemma {:induction false} FlattenChunks<T>(s: seq<T>, size: nat)
    requires size > 0
    ensures Flatten(Chunks(s, size)) == s
    decreases |s|
  {
    if |s| > size {
      FlattenChunks(s[size..], size);
      assert s == s[..size] + s[size..];
    }
  }

  /** Every chunk but the last is full. */
  lemma {:induction false} ChunksFull<T>(s: seq<T>, size: nat)
    requires size > 0
    ensures forall k :: 0 <= k < |Chunks(s, size)| - 1 ==> |Chunks(s, size)[k]| == size
    decreases |s|
  {
    if |s| > size {
      ChunksFull(s[size..], size);
    }
  }
}
