// The web client's picker over the server's video tree: expanding
// directories, selecting files one by one or a directory's files at once,
// the fully/partially-selected marks, select-all, the selected size, the
// name search and the submit guard.

module VideoSelector {
  import opened Common

  datatype Kind = File | Directory

  /**
   * A node of the tree the server lists; an absent `expanded` reads as
   * false and absent children as none, which is how every use reads them.
   */
  datatype Item = Item(kind: Kind, name: string, path: string, size: Option<int>,
                       expanded: bool, children: seq<Item>)

  // ------------------------------------------------------------ file paths

  /** The file paths under a node, depth-first in child order; a file is its own path. */
  function ItemPaths(item: Item): seq<string>
    decreases item
  {
    if item.kind == File then [item.path]
    else PathsIn(item.children)
  }

  /** The file paths under each node of a list, in list order. */
  function PathsIn(items: seq<Item>): seq<string>
    decreases items
  {
    if |items| == 0 then [] else ItemPaths(items[0]) + PathsIn(items[1..])
  }

  lemma {:induction false} PathsInSnoc(items: seq<Item>, x: Item)
    ensures PathsIn(items + [x]) == PathsIn(items) + ItemPaths(x)
  {
    if |items| == 0 {
      assert items + [x] == [x];
    } else {
      assert (items + [x])[1..] == items[1..] + [x];
      PathsInSnoc(items[1..], x);
    }
  }

  /** A file child of a node is among the node's file paths. */
  lemma FileChildInPaths(children: seq<Item>, k: nat)
    requires k < |children| && children[k].kind == File
    ensures children[k].path in PathsIn(children)
  {
    PathsInPrefix(children, k + 1);
    assert children[..k + 1] == children[..k] + [children[k]];
    PathsInSnoc(children[..k], children[k]);
    var whole := PathsIn(children[..k + 1]);
    assert whole[|whole| - 1] == children[k].path;
  }

  /** The paths of a prefix are a prefix of the paths. */
  lemma {:induction false} PathsInPrefix(items: seq<Item>, n: nat)
    requires n <= |items|
    ensures PathsIn(items[..n]) <= PathsIn(items)
    decreases |items| - n
  {
    if n < |items| {
      PathsInPrefix(items, n + 1);
      assert items[..n + 1] == items[..n] + [items[n]];
      PathsInSnoc(items[..n], items[n]);
    } else {
      assert items[..n] == items;
    }
  }

  /**
   * `getAllChildFilePaths`' inner `collectPaths`: appends the node's file
   * paths to the accumulated list, walking the children in order.
   */
  method CollectPaths(item: Item, paths: seq<string>) returns (r: seq<string>)
    ensures r == paths + ItemPaths(item)
    decreases item, 1
  {
    if item.kind == File {
      r := paths + [item.path];
    } else {
      r := CollectPathsIn(item.children, paths);
    }
  }

  /** `forEach(child => collectPaths(child))` over a list of nodes. */
  method CollectPathsIn(items: seq<Item>, paths: seq<string>) returns (r: seq<string>)
    ensures r == paths + PathsIn(items)
    decreases items, 0
  {
    r := paths;
    var i := 0;
    while i < |items|
      invariant 0 <= i <= |items|
      invariant r == paths + PathsIn(items[..i])
    {
      r := CollectPaths(items[i], r);
      assert items[..i + 1] == items[..i] + [items[i]];
      PathsInSnoc(items[..i], items[i]);
      i := i + 1;
    }
    assert items[..i] == items;
  }

  /** `getAllChildFilePaths`: the file paths of a subtree, depth-first in child order. */
  method GetAllChildFilePaths(item: Item) returns (r: seq<string>)
    ensures r == ItemPaths(item)
  {
    r := CollectPaths(item, []);
  }

  // ------------------------------------------------------- selection marks

  /** The immediate file children of a node. */
  function FileChildren(item: Item): (r: seq<Item>)
    ensures forall c :: c in r <==> c in item.children && c.kind == File
  {
    Filter(item.children, (c: Item) => c.kind == File)
  }

  function SelectedCount(files: seq<Item>, selected: set<string>): (r: nat)
    ensures r <= |files|
  {
    Count(files, (c: Item) => c.path in selected)
  }

  /** `isDirectoryFullySelected`: a node with children whose every file child is selected. */
  predicate FullySelected(item: Item, selected: set<string>)
  {
    |item.children| > 0 &&
    forall c :: c in FileChildren(item) ==> c.path in selected
  }

  /** `isDirectoryPartiallySelected`: some but not all of a node's file children are selected. */
  predicate PartiallySelected(item: Item, selected: set<string>)
  {
    |item.children| > 0 &&
    0 < SelectedCount(FileChildren(item), selected) < |FileChildren(item)|
  }

  /** Every element is counted exactly when the count is the length. */
  lemma {:induction false} CountAll(files: seq<Item>, selected: set<string>)
    ensures SelectedCount(files, selected) == |files| <==> forall c :: c in files ==> c.path in selected
    ensures SelectedCount(files, selected) == 0 <==> forall c :: c in files ==> c.path !in selected
  {
    if |files| > 0 {
      CountAll(files[1..], selected);
      assert forall c :: c in files <==> c == files[0] || c in files[1..];
    }
  }

  /**
   * The two marks judged on the immediate file children: fully selected
   * exactly when every one is selected, partially exactly when strictly
   * between none and all are, so never both; a directory whose children are
   * all directories counts as fully selected.
   */
  lemma MarksAgree(item: Item, selected: set<string>)
    requires |item.children| > 0
    ensures FullySelected(item, selected) <==> SelectedCount(FileChildren(item), selected) == |FileChildren(item)|
    ensures PartiallySelected(item, selected) ==> !FullySelected(item, selected)
    ensures FileChildren(item) == [] ==> FullySelected(item, selected) && !PartiallySelected(item, selected)
  {
    CountAll(FileChildren(item), selected);
  }

  /** A childless node is neither fully nor partially selected. */
  lemma ChildlessUnmarked(item: Item, selected: set<string>)
    requires item.children == []
    ensures !FullySelected(item, selected) && !PartiallySelected(item, selected)
  {
  }

  // ------------------------------------------------------------ size

  /** `getTotalSelectedSize`' walk: selected files count their size (0 when missing); other nodes count their children. */
  function ItemSize(item: Item, selected: set<string>): int
    decreases item
  {
    if item.kind == File && item.path in selected then (if item.size.Some? then item.size.value else 0)
    else SizeIn(item.children, selected)
  }

  function SizeIn(items: seq<Item>, selected: set<string>): int
    decreases items
  {
    if |items| == 0 then 0 else ItemSize(items[0], selected) + SizeIn(items[1..], selected)
  }

  lemma {:induction false} SizeInSnoc(items: seq<Item>, x: Item, selected: set<string>)
    ensures SizeIn(items + [x], selected) == SizeIn(items, selected) + ItemSize(x, selected)
  {
    if |items| == 0 {
      assert items + [x] == [x];
    } else {
      assert (items + [x])[1..] == items[1..] + [x];
      SizeInSnoc(items[1..], x, selected);
    }
  }

  /** With nothing selected the total is 0. */
  lemma {:induction false} NothingSelectedSize(items: seq<Item>)
    ensures SizeIn(items, {}) == 0
    decreases items
  {
    if |items| > 0 {
      NothingSelectedSize(items[1..]);
      NothingSelectedItemSize(items[0]);
    }
  }

  lemma {:induction false} NothingSelectedItemSize(item: Item)
    ensures ItemSize(item, {}) == 0
    decreases item
  {
    NothingSelectedSize(item.children);
  }

  /** `collectSize`: adds the selected size of a list of nodes to the running total. */
  method CollectSize(items: seq<Item>, selected: set<string>, total: int) returns (r: int)
    ensures r == total + SizeIn(items, selected)
    decreases items
  {
    r := total;
    var i := 0;
    while i < |items|
      invariant 0 <= i <= |items|
      invariant r == total + SizeIn(items[..i], selected)
    {
      var item := items[i];
      if item.kind == File && item.path in selected {
        r := r + (if item.size.Some? then item.size.value else 0);
      } else {
        r := CollectSize(item.children, selected, r);
      }
      assert items[..i + 1] == items[..i] + [items[i]];
      SizeInSnoc(items[..i], items[i], selected);
      i := i + 1;
    }
    assert items[..i] == items;
  }

  // ------------------------------------------------------------ expanding

  /** `updateTree`: flips `expanded` on the nodes at that path, and looks into the non-empty children of the others. */
  function UpdateTree(items: seq<Item>, path: string): (r: seq<Item>)
    ensures |r| == |items|
    ensures forall k :: 0 <= k < |items| && items[k].path == path ==> r[k] == items[k].(expanded := !items[k].expanded)
    ensures forall k :: 0 <= k < |items| ==> r[k].path == items[k].path && r[k].name == items[k].name
    decreases items
  {
    if |items| == 0 then []
    else [UpdateItem(items[0], path)] + UpdateTree(items[1..], path)
  }

  function UpdateItem(item: Item, path: string): (r: Item)
    ensures item.path == path ==> r == item.(expanded := !item.expanded)
    ensures r.path == item.path && r.name == item.name
    decreases item
  {
    if item.path == path then item.(expanded := !item.expanded)
    else if |item.children| > 0 then item.(children := UpdateTree(item.children, path))
    else item
  }

  /** Toggling the same path twice restores the tree. */
  lemma {:induction false} ToggleTwice(items: seq<Item>, path: string)
    ensures UpdateTree(UpdateTree(items, path), path) == items
    decreases items
  {
    if |items| > 0 {
      ToggleItemTwice(items[0], path);
      ToggleTwice(items[1..], path);
      assert UpdateTree(items, path)[1..] == UpdateTree(items[1..], path);
    }
  }

  lemma {:induction false} ToggleItemTwice(item: Item, path: string)
    ensures UpdateItem(UpdateItem(item, path), path) == item
    decreases item
  {
    if item.path != path && |item.children| > 0 {
      ToggleTwice(item.children, path);
    }
  }

  // ------------------------------------------------------------ search

  /** A node's name contains the query, both lower-cased. */
  predicate Matches(item: Item, query: string)
  {
    Contains(ToLower(item.name), ToLower(query))
  }

  /** Matching ignores the case of the query, and the empty query matches every node. */
  lemma MatchesIgnoresCase(item: Item, query: string)
    ensures Matches(item, ToLower(query)) == Matches(item, query)
    ensures Matches(item, "")
  {
    var l := ToLower(query);
    assert ToLower(l) == l by {
      assert forall k :: 0 <= k < |l| ==> ToLower(l)[k] == l[k];
    }
    assert ToLower("") == "";
  }

  /**
   * `filterItems` on values: every node with non-empty children gets its
   * children filtered, and a node stays when its name matches or, for a
   * node that had children, some child stays.
   */
  function FilterItems(items: seq<Item>, query: string): (r: seq<Item>)
    ensures |r| <= |items|
    decreases items
  {
    if |items| == 0 then []
    else
      var p := Pruned(items[0], query);
      (if Kept(items[0], p, query) then [p] else []) + FilterItems(items[1..], query)
  }

  /** The node with its children, when it had some, replaced by the filtered children. */
  function Pruned(item: Item, query: string): (r: Item)
    ensures r.name == item.name && r.path == item.path && r.kind == item.kind
    decreases item
  {
    if |item.children| > 0 then item.(children := FilterItems(item.children, query))
    else item
  }

  predicate Kept(item: Item, pruned: Item, query: string)
  {
    Matches(item, query) || (|item.children| > 0 && |pruned.children| > 0)
  }

  /** Every node kept by the search matches the query or keeps a descendant that does. */
  predicate Justified(item: Item, query: string)
    decreases item
  {
    Matches(item, query) ||
    (exists k :: 0 <= k < |item.children| && Justified(item.children[k], query))
  }

  lemma {:induction false} FilterJustified(items: seq<Item>, query: string)
    ensures forall x :: x in FilterItems(items, query) ==> Justified(x, query)
    decreases items
  {
    if |items| > 0 {
      FilterJustified(items[1..], query);
      var item := items[0];
      var p := Pruned(item, query);
      if Kept(item, p, query) && !Matches(item, query) {
        FilterJustified(item.children, query);
        var c := p.children[0];
        assert c in FilterItems(item.children, query);
        assert Justified(c, query);
        assert Justified(p, query);
      }
    }
  }

  /** Every node that matches or has a matching descendant is kept, with its children filtered. */
  lemma {:induction false} JustifiedKept(items: seq<Item>, query: string)
    ensures forall k :: 0 <= k < |items| && Justified(items[k], query) ==> Pruned(items[k], query) in FilterItems(items, query)
    decreases items
  {
    if |items| > 0 {
      JustifiedKept(items[1..], query);
      var item := items[0];
      if Justified(item, query) && !Matches(item, query) {
        var k :| 0 <= k < |item.children| && Justified(item.children[k], query);
        JustifiedKept(item.children, query);
        assert Pruned(item.children[k], query) in FilterItems(item.children, query);
        assert Kept(item, Pruned(item, query), query);
      }
      forall k | 0 <= k < |items| && Justified(items[k], query)
        ensures Pruned(items[k], query) in FilterItems(items, query)
      {
        if k > 0 {
          assert items[k] == items[1..][k - 1];
        }
      }
    }
  }

  /** A query that is blank once trimmed. */
  predicate Blank(query: string) { Strip(query) == "" }

  /**
   * `filteredTree` as written: a blank query shows the tree; otherwise the
   * filtered copy of the top-level list is shown, but the nodes it filters
   * are the tree's own, so every node of the tree has its children
   * replaced by the filtered children as well.
   */
  function FilteredTreeAsWritten(tree: seq<Item>, query: string): (r: (seq<Item>, seq<Item>))
    ensures Blank(query) ==> r == (tree, tree)
    ensures !Blank(query) ==> r.0 == FilterItems(tree, query) && |r.1| == |tree|
    ensures !Blank(query) ==> forall k :: 0 <= k < |tree| ==> r.1[k] == Pruned(tree[k], query)
  {
    if Blank(query) then (tree, tree)
    else (FilterItems(tree, query), seq(|tree|, k requires 0 <= k < |tree| => Pruned(tree[k], query)))
  }

  /** A search with no match empties a directory for good: clearing the search afterwards no longer shows its file. */
  lemma SearchLosesChildren()
    ensures var file := Item(File, "a.mp4", "/v/a.mp4", None, false, []);
            var dir := Item(Directory, "v", "/v", None, false, [file]);
            var after := FilteredTreeAsWritten([dir], "zz").1;
            FilteredTreeAsWritten(after, "").0 == [dir.(children := [])] &&
            FilteredTreeAsWritten(after, "").0 != [dir]
  {
    var file := Item(File, "a.mp4", "/v/a.mp4", None, false, []);
    var dir := Item(Directory, "v", "/v", None, false, [file]);
    FileFilteredOut(file);
    assert Pruned(dir, "zz") == dir.(children := []);
    assert Blank("");
  }

  /** A file named "a.mp4" does not survive the search "zz". */
  lemma FileFilteredOut(file: Item)
    requires file == Item(File, "a.mp4", "/v/a.mp4", None, false, [])
    ensures FilterItems([file], "zz") == []
  {
    NotContainsChar(ToLower("a.mp4"), ToLower("zz"), 'z');
    assert !Matches(file, "zz");
    assert Pruned(file, "zz") == file;
    assert [file][1..] == [];
  }

  /**
   * The evidently intended search: the shown list is the filtered copy and
   * the tree itself is left as it was, so a blank query afterwards shows
   * the whole tree again.
   */
  function FilteredTree(tree: seq<Item>, query: string): (r: seq<Item>)
    ensures Blank(query) ==> r == tree
    ensures forall x :: x in r ==> Blank(query) || Justified(x, query)
    ensures !Blank(query) ==> forall k :: 0 <= k < |tree| && Justified(tree[k], query) ==> Pruned(tree[k], query) in r
    ensures |r| <= |tree|
  {
    if Blank(query) then tree
    else
      FilterJustified(tree, query);
      JustifiedKept(tree, query);
      FilterItems(tree, query)
  }

  // ------------------------------------------------------------ the component

  /** The loop of `toggleSelection` over a directory's file paths: each is removed, or each is added. */
  method ToggleAll(selected: set<string>, paths: seq<string>, remove: bool) returns (r: set<string>)
    ensures remove ==> r == selected - set p | p in paths
    ensures !remove ==> r == selected + set p | p in paths
  {
    r := selected;
    var i := 0;
    while i < |paths|
      invariant 0 <= i <= |paths|
      invariant r == if remove then selected - PathSet(paths[..i]) else selected + PathSet(paths[..i])
    {
      PathSetSnoc(paths[..i], paths[i]);
      assert paths[..i + 1] == paths[..i] + [paths[i]];
      if remove {
        r := r - {paths[i]};
      } else {
        r := r + {paths[i]};
      }
      i := i + 1;
    }
    assert paths[..i] == paths;
  }

  /** The paths of a list, as a set. */
  function PathSet(paths: seq<string>): set<string>
  {
    set p | p in paths
  }

  lemma PathSetSnoc(paths: seq<string>, x: string)
    ensures PathSet(paths + [x]) == PathSet(paths) + {x}
  {
    assert forall p :: p in paths + [x] <==> p in paths || p == x;
  }

  /** The picker's state: the listed tree and the set of selected file paths. */
  class Selector {
    var tree: seq<Item>
    var selected: set<string>

    constructor(tree: seq<Item>)
      ensures this.tree == tree && selected == {}
    {
      this.tree := tree;
      selected := {};
    }

    /**
     * `toggleSelection`: a file's path flips membership; for a directory,
     * all of its descendant file paths are removed when it is fully
     * selected and added otherwise.
     */
    method ToggleSelection(item: Item)
      modifies this
      ensures tree == old(tree)
      ensures item.kind == File ==>
                selected == (if item.path in old(selected) then old(selected) - {item.path} else old(selected) + {item.path})
      ensures item.kind == Directory && FullySelected(item, old(selected)) ==>
                selected == old(selected) - set p | p in ItemPaths(item)
      ensures item.kind == Directory && !FullySelected(item, old(selected)) ==>
                selected == old(selected) + set p | p in ItemPaths(item)
    {
      var newSelected := selected;
      if item.kind == Directory {
        var childPaths := GetAllChildFilePaths(item);
        var full := FullySelected(item, selected);
        newSelected := ToggleAll(selected, childPaths, full);
      } else {
        if item.path in newSelected {
          newSelected := newSelected - {item.path};
        } else {
          newSelected := newSelected + {item.path};
        }
      }
      selected := newSelected;
    }

    /** `selectAll`: exactly the file paths of the whole tree. */
    method SelectAll()
      modifies this
      ensures tree == old(tree) && selected == set p | p in PathsIn(tree)
    {
      var all := CollectPathsIn(tree, []);
      selected := set p | p in all;
    }

    /** `deselectAll`. */
    method DeselectAll()
      modifies this
      ensures tree == old(tree) && selected == {}
    {
      selected := {};
    }

    /** `toggleExpanded`. */
    method ToggleExpanded(path: string)
      modifies this
      ensures tree == UpdateTree(old(tree), path) && selected == old(selected)
    {
      tree := UpdateTree(tree, path);
    }

    /** `getTotalSelectedSize`' byte total. */
    method TotalSelectedSize() returns (size: int)
      ensures size == SizeIn(tree, selected)
    {
      size := CollectSize(tree, selected, 0);
    }

    /**
     * `handleSubmit`: with nothing selected no request is sent; otherwise the
     * selected paths are sent, and a successful reply clears the selection.
     * `reply` is the server's success flag, None when the request fails.
     * The paths are sent as a set: the insertion order in which the source
     * lists them is not kept.
     */
    method HandleSubmit(reply: Option<bool>) returns (sent: Option<set<string>>)
      modifies this
      ensures old(selected) == {} ==> sent.None? && selected == {}
      ensures old(selected) != {} ==> sent == Some(old(selected))
      ensures selected == (if old(selected) != {} && reply == Some(true) then {} else old(selected))
      ensures tree == old(tree)
    {
      if selected == {} {
        return None;
      }
      sent := Some(selected);
      if reply == Some(true) {
        selected := {};
      }
    }
  }

  /** Selecting a directory that is not fully selected makes it fully selected, provided it has children. */
  method SelectDirectory(s: Selector, dir: Item)
    requires dir.kind == Directory && |dir.children| > 0
    requires !FullySelected(dir, s.selected)
    modifies s
    ensures FullySelected(dir, s.selected)
  {
    s.ToggleSelection(dir);
    forall c | c in FileChildren(dir)
      ensures c.path in s.selected
    {
      var k :| 0 <= k < |dir.children| && dir.children[k] == c;
      FileChildInPaths(dir.children, k);
    }
  }

  /** Deselecting a fully selected directory leaves none of its file children selected. */
  method DeselectDirectory(s: Selector, dir: Item)
    requires dir.kind == Directory && FullySelected(dir, s.selected)
    modifies s
    ensures !PartiallySelected(dir, s.selected)
    ensures forall c :: c in FileChildren(dir) ==> c.path !in s.selected
  {
    s.ToggleSelection(dir);
    forall c | c in FileChildren(dir)
      ensures c.path !in s.selected
    {
      var k :| 0 <= k < |dir.children| && dir.children[k] == c;
      FileChildInPaths(dir.children, k);
    }
    CountAll(FileChildren(dir), s.selected);
  }
}
