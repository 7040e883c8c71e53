// `scan_directory_tree` of the backend's available-videos route: a recursive
// listing of the storage directory that keeps only supported video files
// and the directories that (transitively) hold some, directories first and
// each group ordered case-insensitively by name.
module DirectoryScan {
  import opened Common

  /** The backend's ALLOWED_EXTENSIONS. */
  const AllowedExtensions: set<string> := {"mp4", "webm", "ogg", "mov", "avi", "mkv"}

  /**
   * A directory entry as `os.stat` / `os.listdir` see it: a file with its
   * size, a directory (which `os.listdir` may refuse), or an entry whose
   * `os.stat` raises OSError.
   */
  datatype FsEntry =
    | FsFile(name: string, size: nat, mtime: real)
    | FsDir(name: string, mtime: real, listable: bool, entries: seq<FsEntry>)
    | FsBroken(name: string)

  /** The JSON tree items the route returns (float size fields left out). */
  datatype TreeItem =
    | FileItem(name: string, path: string, relativePath: string, size: nat, modified: real, format: string)
    | DirItem(name: string, path: string, relativePath: string, totalFiles: nat, totalSize: nat,
              modified: real, children: seq<TreeItem>)

  // ------------------------------------------------------------ ordering

  /** Python's `<=` on strings: lexicographic by code point. */
  predicate StrLe(a: string, b: string)
    decreases |a|
  {
    |a| == 0 || (|b| > 0 && (a[0] < b[0] || (a[0] == b[0] && StrLe(a[1..], b[1..]))))
  }

  lemma {:induction false} StrLeTotal(a: string, b: string)
    ensures StrLe(a, b) || StrLe(b, a)
    decreases |a|
  {
    if |a| > 0 && |b| > 0 && a[0] == b[0] {
      StrLeTotal(a[1..], b[1..]);
    }
  }

  lemma {:induction false} StrLeTrans(a: string, b: string, c: string)
    requires StrLe(a, b) && StrLe(b, c)
    ensures StrLe(a, c)
    decreases |a|
  {
    if |a| > 0 && |b| > 0 && |c| > 0 && a[0] == b[0] && b[0] == c[0] {
      StrLeTrans(a[1..], b[1..], c[1..]);
    }
  }

  /** The sort key `(not isdir, name.lower())`: False sorts first, so directories lead. */
  datatype Key = Key(notDir: bool, lowered: string)

  predicate KeyLe(a: Key, b: Key)
  {
    (!a.notDir && b.notDir) || (a.notDir == b.notDir && StrLe(a.lowered, b.lowered))
  }

  lemma KeyLeTotal(a: Key, b: Key)
    ensures KeyLe(a, b) || KeyLe(b, a)
  {
    StrLeTotal(a.lowered, b.lowered);
  }

  lemma KeyLeTrans(a: Key, b: Key, c: Key)
    requires KeyLe(a, b) && KeyLe(b, c)
    ensures KeyLe(a, c)
  {
    if a.notDir == b.notDir && b.notDir == c.notDir {
      StrLeTrans(a.lowered, b.lowered, c.lowered);
    }
  }

  function EntryName(e: FsEntry): string
  {
    match e
    case FsFile(n, _, _) => n
    case FsDir(n, _, _, _) => n
    case FsBroken(n) => n
  }

  function EntryKey(e: FsEntry): Key { Key(!e.FsDir?, ToLower(EntryName(e))) }

  predicate EntriesSorted(s: seq<FsEntry>)
  {
    forall i, j :: 0 <= i < j < |s| ==> KeyLe(EntryKey(s[i]), EntryKey(s[j]))
  }

  /** Appending an entry no key of `s` exceeds keeps `s` sorted. */
  lemma AppendAbove(s: seq<FsEntry>, e: FsEntry)
    requires EntriesSorted(s) && |s| > 0 && KeyLe(EntryKey(s[|s| - 1]), EntryKey(e))
    ensures EntriesSorted(s + [e])
  {
    forall i | 0 <= i < |s| - 1 ensures KeyLe(EntryKey(s[i]), EntryKey(e)) {
      KeyLeTrans(EntryKey(s[i]), EntryKey(s[|s| - 1]), EntryKey(e));
    }
  }

  /** The recursive case of Insert: everything inserted before `last` stays below it. */
  lemma InsertBelowLast(s: seq<FsEntry>, e: FsEntry, r0: seq<FsEntry>)
    requires EntriesSorted(s) && |s| > 0 && !KeyLe(EntryKey(s[|s| - 1]), EntryKey(e))
    requires EntriesSorted(r0) && multiset(r0) == multiset(s[..|s| - 1]) + multiset{e}
    ensures EntriesSorted(r0 + [s[|s| - 1]])
    ensures multiset(r0 + [s[|s| - 1]]) == multiset(s) + multiset{e}
  {
    var last := s[|s| - 1];
    var init := s[..|s| - 1];
    assert s == init + [last];
    KeyLeTotal(EntryKey(last), EntryKey(e));
    forall i | 0 <= i < |r0| ensures KeyLe(EntryKey(r0[i]), EntryKey(last)) {
      assert r0[i] in multiset(r0);
      if r0[i] != e {
        assert r0[i] in multiset(init);
        var k :| 0 <= k < |init| && init[k] == r0[i];
        assert KeyLe(EntryKey(s[k]), EntryKey(s[|s| - 1]));
      }
    }
  }

  /** Insert `e` after every entry whose key is not above its own (a stable insertion). */
  function Insert(e: FsEntry, s: seq<FsEntry>): (r: seq<FsEntry>)
    requires EntriesSorted(s)
    ensures EntriesSorted(r)
    ensures multiset(r) == multiset(s) + multiset{e}
    decreases |s|
  {
    if |s| == 0 then [e]
    else if KeyLe(EntryKey(s[|s| - 1]), EntryKey(e)) then
      AppendAbove(s, e);
      s + [e]
    else
      var r0 := Insert(e, s[..|s| - 1]);
      InsertBelowLast(s, e, r0);
      r0 + [s[|s| - 1]]
  }

  /** `entries.sort(key=...)`: an ordered permutation of the listing. */
  function SortEntries(s: seq<FsEntry>): (r: seq<FsEntry>)
    ensures EntriesSorted(r)
    ensures multiset(r) == multiset(s)
    ensures forall x :: x in r <==> x in s
    decreases |s|
  {
    if |s| == 0 then []
    else
      var r := Insert(s[|s| - 1], SortEntries(s[..|s| - 1]));
      assert s == s[..|s| - 1] + [s[|s| - 1]];
      assert forall x :: x in r <==> x in multiset(r);
      r
  }

  // ------------------------------------------------------------ the scan

  /** `'.' in entry` and the lowercased text after its last '.' is an allowed extension. */
  predicate IsVideoName(name: string)
  {
    '.' in name && ToLower(RSplitOnce(name, '.')[1]) in AllowedExtensions
  }

  function ItemName(item: TreeItem): string
  {
    match item
    case FileItem(n, _, _, _, _, _) => n
    case DirItem(n, _, _, _, _, _, _) => n
  }

  function ItemKey(item: TreeItem): Key { Key(item.FileItem?, ToLower(ItemName(item))) }

  predicate ItemsSorted(s: seq<TreeItem>)
  {
    forall i, j :: 0 <= i < j < |s| ==> KeyLe(ItemKey(s[i]), ItemKey(s[j]))
  }

  function FileCount(items: seq<TreeItem>): nat
  {
    if |items| == 0 then 0 else (if items[0].FileItem? then 1 else 0) + FileCount(items[1..])
  }

  /** `sum(child.get("size", 0))`: directory children have no "size". */
  function FileSize(items: seq<TreeItem>): nat
  {
    if |items| == 0 then 0 else (if items[0].FileItem? then items[0].size else 0) + FileSize(items[1..])
  }

  /** What every item of a scan satisfies, at every depth. */
  predicate WellFormed(item: TreeItem)
  {
    !StartsWith(ItemName(item), ".") &&
    match item
    case FileItem(name, _, _, _, _, format) =>
      IsVideoName(name) && format == ToLower(RSplitOnce(name, '.')[1]) && format in AllowedExtensions
    case DirItem(_, _, _, totalFiles, totalSize, _, children) =>
      |children| > 0 && totalFiles == FileCount(children) && totalSize == FileSize(children) &&
      ItemsSorted(children) && forall k :: 0 <= k < |children| ==> WellFormed(children[k])
  }

  /** `os.path.join(relative_path, entry) if relative_path else entry`. */
  function RelPath(relPath: string, name: string): string
  {
    if |relPath| > 0 then PathJoin(relPath, name) else name
  }

  /** `scan_directory_tree(dir_path, relative_path)` for a directory. */
  function ScanDir(dirPath: string, relPath: string, d: FsEntry): (r: seq<TreeItem>)
    requires d.FsDir?
    ensures ItemsSorted(r)
    ensures forall k :: 0 <= k < |r| ==> WellFormed(r[k])
    decreases d, 1
  {
    if !d.listable then []
    else ScanEntries(dirPath, relPath, d, SortEntries(d.entries))
  }

  /** The loop over the sorted listing; `parent` is the directory being listed. */
  function ScanEntries(dirPath: string, relPath: string, ghost parent: FsEntry, entries: seq<FsEntry>): (r: seq<TreeItem>)
    requires parent.FsDir? && forall k :: 0 <= k < |entries| ==> entries[k] in parent.entries
    requires EntriesSorted(entries)
    ensures ItemsSorted(r)
    ensures forall k :: 0 <= k < |r| ==> WellFormed(r[k])
    ensures |r| > 0 ==> |entries| > 0
    ensures |entries| > 0 ==> forall k :: 0 <= k < |r| ==> KeyLe(EntryKey(entries[0]), ItemKey(r[k]))
    decreases parent, 0, |entries|
  {
    if |entries| == 0 then []
    else
      var rest := ScanEntries(dirPath, relPath, parent, entries[1..]);
      var head := ScanEntry(dirPath, relPath, parent, entries[0]);
      HeadBeforeRest(entries, head, rest);
      head + rest
  }

  /** Joining the first entry's item to the items of the rest keeps the order. */
  lemma HeadBeforeRest(entries: seq<FsEntry>, head: seq<TreeItem>, rest: seq<TreeItem>)
    requires |entries| > 0 && EntriesSorted(entries) && |head| <= 1
    requires forall k :: 0 <= k < |head| ==> ItemKey(head[k]) == EntryKey(entries[0])
    requires ItemsSorted(rest)
    requires |rest| > 0 ==> |entries| > 1
    requires |entries| > 1 ==> forall k :: 0 <= k < |rest| ==> KeyLe(EntryKey(entries[1]), ItemKey(rest[k]))
    ensures ItemsSorted(head + rest)
    ensures forall k :: 0 <= k < |head + rest| ==> KeyLe(EntryKey(entries[0]), ItemKey((head + rest)[k]))
  {
    var e := entries[0];
    forall k | 0 <= k < |rest| ensures KeyLe(EntryKey(e), ItemKey(rest[k])) {
      KeyLeTrans(EntryKey(e), EntryKey(entries[1]), ItemKey(rest[k]));
    }
    StrLeRefl(ToLower(EntryName(e)));
  }

  lemma {:induction false} StrLeRefl(a: string)
    ensures StrLe(a, a)
    decreases |a|
  {
    if |a| > 0 { StrLeRefl(a[1..]); }
  }

  /** One iteration: the item an entry contributes, if any. */
  function ScanEntry(dirPath: string, relPath: string, ghost parent: FsEntry, e: FsEntry): (r: seq<TreeItem>)
    requires parent.FsDir? && e in parent.entries
    ensures |r| <= 1
    ensures forall k :: 0 <= k < |r| ==> WellFormed(r[k]) && ItemKey(r[k]) == EntryKey(e) && ItemName(r[k]) == EntryName(e)
    ensures StartsWith(EntryName(e), ".") || e.FsBroken? ==> r == []
    ensures e.FsFile? && !StartsWith(e.name, ".") ==> (|r| == 1 <==> IsVideoName(e.name))
    decreases parent, 0, 0
  {
    var name := EntryName(e);
    if StartsWith(name, ".") then []
    else
      var path := PathJoin(dirPath, name);
      var rel := RelPath(relPath, name);
      match e
      case FsBroken(_) => []
      case FsDir(_, mtime, _, _) =>
        var children := ScanDir(path, rel, e);
        if |children| == 0 then []
        else [DirItem(name, path, rel, FileCount(children), FileSize(children), mtime, children)]
      case FsFile(_, size, mtime) =>
        if IsVideoName(name) then [FileItem(name, path, rel, size, mtime, ToLower(RSplitOnce(name, '.')[1]))]
        else []
  }
}
