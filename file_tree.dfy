/** The sidebar's file tree: how `loadTree` builds it from directory listings
    (ignored names left out, directories first, a depth cap), how `getAllFiles`
    flattens it, and how `createFile` finds a path in it. Listing a directory
    is a parameter (it may fail), and so is the `localeCompare` order of names. */
module FileTree {
  import opened Base
  import opened Files

  /** A listed entry; a directory carries the tree below it. */
  datatype TreeNode = Leaf(entry: FileEntry) | Branch(entry: FileEntry, children: seq<TreeNode>)

  /** `fs.readdir`: the entries of a directory, or the error it throws. */
  type Lister = string -> Result<seq<FileEntry>>

  /** `localeCompare(a, b) <= 0`: `a` may sort before `b`. */
  type Collation = (string, string) -> bool

  /** The names `loadTree` never lists. */
  predicate Ignored(name: string) {
    name in ["node_modules", ".git", "dist", "build", "coverage", ".DS_Store"]
  }

  /** Listings deeper than this give no entries. */
  const MaxDepth: nat := 20

  // ---------------------------------------------------------------------------
  // Sorting: directories first, then by name

  /** The comparator of `loadTree`'s sort: of a directory and a file the
      directory comes first; otherwise the names decide. */
  predicate Precedes(collate: Collation, a: TreeNode, b: TreeNode) {
    if a.entry.isDirectory == b.entry.isDirectory then collate(a.entry.name, b.entry.name) else a.entry.isDirectory
  }

  /** Any two names can be compared. */
  ghost predicate Total(collate: Collation) {
    forall x, y :: collate(x, y) || collate(y, x)
  }

  predicate Sorted(collate: Collation, s: seq<TreeNode>) {
    forall i :: 0 <= i < |s| - 1 ==> Precedes(collate, s[i], s[i + 1])
  }

  /** Inserting `x` before the first node it may precede. */
  function Insert(collate: Collation, x: TreeNode, s: seq<TreeNode>): (r: seq<TreeNode>)
    ensures multiset(r) == multiset(s) + multiset{x}
    ensures r != [] && (r[0] == x || (s != [] && r[0] == s[0]))
  {
    if s == [] then [x]
    else if Precedes(collate, x, s[0]) then [x] + s
    else
      assert s == [s[0]] + s[1..];
      [s[0]] + Insert(collate, x, s[1..])
  }

  /** `nodes.sort(...)`, as a stable insertion sort. */
  function Sort(collate: Collation, s: seq<TreeNode>): (r: seq<TreeNode>)
    ensures multiset(r) == multiset(s)
  {
    if s == [] then []
    else
      assert s == [s[0]] + s[1..];
      Insert(collate, s[0], Sort(collate, s[1..]))
  }

  lemma {:induction false} InsertSorted(collate: Collation, x: TreeNode, s: seq<TreeNode>)
    requires Total(collate) && Sorted(collate, s)
    ensures Sorted(collate, Insert(collate, x, s))
  {
    if s != [] && !Precedes(collate, x, s[0]) {
      assert collate(x.entry.name, s[0].entry.name) || collate(s[0].entry.name, x.entry.name);
      assert Precedes(collate, s[0], x);
      InsertSorted(collate, x, s[1..]);
    }
  }

  /** The sort rearranges the nodes and, for a total order of names, leaves each
      next to one it may precede. */
  lemma {:induction false} SortSpec(collate: Collation, s: seq<TreeNode>)
    ensures multiset(Sort(collate, s)) == multiset(s)
    ensures Total(collate) ==> Sorted(collate, Sort(collate, s))
  {
    if s != [] && Total(collate) {
      SortSpec(collate, s[1..]);
      InsertSorted(collate, s[0], Sort(collate, s[1..]));
    }
  }

  /** In a sorted level every directory comes before every file. */
  lemma {:induction false} DirectoriesFirst(collate: Collation, s: seq<TreeNode>, i: int, j: int)
    requires Sorted(collate, s)
    requires 0 <= i < j < |s| && s[j].entry.isDirectory
    ensures s[i].entry.isDirectory
    decreases j - i
  {
    assert Precedes(collate, s[j - 1], s[j]);
    if i < j - 1 {
      DirectoriesFirst(collate, s, i, j - 1);
    }
  }

  // ---------------------------------------------------------------------------
  // Loading

  /** `loadTree(path, depth)`: beyond the depth cap nothing; otherwise the
      listing's entries in order, ignored names skipped, each directory with its
      own tree one level deeper, then sorted; the first error thrown on the way
      is the result. */
  function Load(readdir: Lister, collate: Collation, path: string, depth: nat): Result<seq<TreeNode>>
    decreases MaxDepth + 1 - depth, 1, 0
  {
    if depth > MaxDepth then Ok([])
    else
      var listed := readdir(path);
      if listed.Err? then Err(listed.message)
      else
        var nodes := Nodes(readdir, collate, listed.value, depth);
        if nodes.Err? then nodes else Ok(Sort(collate, nodes.value))
  }

  /** The nodes the loop of `loadTree` pushes for `files`, in listing order. */
  function Nodes(readdir: Lister, collate: Collation, files: seq<FileEntry>, depth: nat): Result<seq<TreeNode>>
    requires depth <= MaxDepth
    decreases MaxDepth + 1 - depth, 0, |files|
  {
    if files == [] then Ok([])
    else
      var before := Nodes(readdir, collate, files[..|files| - 1], depth);
      if before.Err? then before
      else
        var pushed := Node(readdir, collate, files[|files| - 1], depth);
        if pushed.Err? then Err(pushed.message) else Ok(before.value + pushed.value)
  }

  /** What one listed entry contributes: nothing when ignored, otherwise its node. */
  function Node(readdir: Lister, collate: Collation, file: FileEntry, depth: nat): Result<seq<TreeNode>>
    requires depth <= MaxDepth
    decreases MaxDepth + 1 - depth, 0, 0
  {
    if Ignored(file.name) then Ok([])
    else if file.isDirectory then
      var sub := Load(readdir, collate, file.path, depth + 1);
      if sub.Err? then Err(sub.message) else Ok([Branch(file, sub.value)])
    else Ok([Leaf(file)])
  }

  /** Once the loop has thrown, the later entries do not change the result. */
  lemma {:induction false} NodesErrorSticks(readdir: Lister, collate: Collation, files: seq<FileEntry>, k: nat, depth: nat)
    requires depth <= MaxDepth && k <= |files|
    requires Nodes(readdir, collate, files[..k], depth).Err?
    ensures Nodes(readdir, collate, files, depth) == Nodes(readdir, collate, files[..k], depth)
    decreases |files|
  {
    if k < |files| {
      var init := files[..|files| - 1];
      assert init[..k] == files[..k];
      NodesErrorSticks(readdir, collate, init, k, depth);
    } else {
      assert files[..k] == files;
    }
  }

  /** No node anywhere in the tree has an ignored name. */
  predicate Clean(nodes: seq<TreeNode>) {
    forall n :: n in nodes ==> !Ignored(n.entry.name) && (n.Branch? ==> Clean(n.children))
  }

  /** The tree has at most `h` levels. */
  predicate Within(nodes: seq<TreeNode>, h: nat) {
    forall n :: n in nodes ==> h > 0 && (n.Branch? ==> Within(n.children, h - 1))
  }

  /** Every level of the tree is sorted. */
  predicate Ordered(collate: Collation, nodes: seq<TreeNode>) {
    && Sorted(collate, nodes)
    && forall n :: n in nodes ==> n.Branch? ==> Ordered(collate, n.children)
  }

  /** The number of levels a listing at `depth` can have. */
  function Levels(depth: nat): nat {
    if depth > MaxDepth then 0 else MaxDepth + 1 - depth
  }

  /** A loaded tree holds no ignored name, has no more levels than the depth cap
      leaves, and (for a total order of names) is sorted on every level, so that
      directories come before files. */
  lemma {:induction false} LoadShape(readdir: Lister, collate: Collation, path: string, depth: nat)
    ensures var r := Load(readdir, collate, path, depth);
      r.Ok? ==> Clean(r.value) && Within(r.value, Levels(depth)) && (Total(collate) ==> Ordered(collate, r.value))
    decreases MaxDepth + 1 - depth, 1, 0
  {
    if depth <= MaxDepth {
      var listed := readdir(path);
      if listed.Ok? {
        NodesShape(readdir, collate, listed.value, depth);
        var nodes := Nodes(readdir, collate, listed.value, depth);
        if nodes.Ok? {
          SortSpec(collate, nodes.value);
          var sorted := Sort(collate, nodes.value);
          assert forall n :: n in sorted <==> n in nodes.value by {
            forall n
              ensures n in sorted <==> n in nodes.value
            {
              assert n in sorted <==> n in multiset(sorted);
              assert n in nodes.value <==> n in multiset(nodes.value);
            }
          }
        }
      }
    }
  }

  lemma {:induction false} NodesShape(readdir: Lister, collate: Collation, files: seq<FileEntry>, depth: nat)
    requires depth <= MaxDepth
    ensures var r := Nodes(readdir, collate, files, depth);
      r.Ok? ==> (
        && Clean(r.value) && Within(r.value, Levels(depth))
        && (Total(collate) ==> forall n :: n in r.value ==> n.Branch? ==> Ordered(collate, n.children)))
    decreases MaxDepth + 1 - depth, 0, |files|
  {
    if files != [] {
      NodesShape(readdir, collate, files[..|files| - 1], depth);
      var file := files[|files| - 1];
      if !Ignored(file.name) && file.isDirectory {
        LoadShape(readdir, collate, file.path, depth + 1);
      }
    }
  }

  /** The nodes pushed for a listing are exactly its entries that are not
      ignored, in order; a directory carries its own loaded tree and a file none. */
  lemma {:induction false} NodesSpec(readdir: Lister, collate: Collation, files: seq<FileEntry>, depth: nat)
    requires depth <= MaxDepth
    ensures var r := Nodes(readdir, collate, files, depth);
      r.Ok? ==>
        && (forall n :: n in r.value ==> n.entry in files && !Ignored(n.entry.name))
        && (forall f :: f in files && !Ignored(f.name) ==> exists n :: n in r.value && n.entry == f)
        && (forall n :: n in r.value ==>
              if n.entry.isDirectory then
                var sub := Load(readdir, collate, n.entry.path, depth + 1);
                n.Branch? && sub.Ok? && n.children == sub.value
              else n.Leaf?)
    decreases |files|
  {
    if files != [] {
      var init := files[..|files| - 1];
      var file := files[|files| - 1];
      NodesSpec(readdir, collate, init, depth);
      var r := Nodes(readdir, collate, files, depth);
      if r.Ok? {
        var before := Nodes(readdir, collate, init, depth).value;
        var pushed := Node(readdir, collate, file, depth).value;
        assert r.value == before + pushed;
        forall f | f in files && !Ignored(f.name)
          ensures exists n :: n in r.value && n.entry == f
        {
          if f in init {
            var n :| n in before && n.entry == f;
            assert n in r.value;
          } else {
            assert f == file;
            assert pushed[0] in r.value;
          }
        }
      }
    }
  }

  /** The top level of a loaded directory lists exactly the directory's entries
      that are not ignored. */
  lemma LoadTops(readdir: Lister, collate: Collation, path: string, depth: nat)
    requires depth <= MaxDepth
    ensures var r := Load(readdir, collate, path, depth);
      r.Ok? ==> (
        && readdir(path).Ok?
        && forall f :: (exists n :: n in r.value && n.entry == f) <==> f in readdir(path).value && !Ignored(f.name))
  {
    var listed := readdir(path);
    if listed.Ok? {
      NodesSpec(readdir, collate, listed.value, depth);
      var nodes := Nodes(readdir, collate, listed.value, depth);
      if nodes.Ok? {
        var sorted := Sort(collate, nodes.value);
        forall n
          ensures n in sorted <==> n in nodes.value
        {
          assert n in sorted <==> n in multiset(sorted);
          assert n in nodes.value <==> n in multiset(nodes.value);
        }
      }
    }
  }

  // ---------------------------------------------------------------------------
  // Flattening and finding

  /** `getAllFiles`'s `flatten`: in pre-order, each node that is not a directory,
      then whatever lies below it. */
  function AllFiles(nodes: seq<TreeNode>): seq<FileEntry>
    decreases nodes
  {
    if nodes == [] then [] else AllFiles(nodes[..|nodes| - 1]) + Own(nodes[|nodes| - 1])
  }

  /** What one node contributes to the flattened list. */
  function Own(n: TreeNode): seq<FileEntry>
    decreases n
  {
    (if !n.entry.isDirectory then [n.entry] else []) + if n.Branch? then AllFiles(n.children) else []
  }

  /** Some node of the tree, at any level, is a non-directory with entry `e`. */
  predicate HasFile(nodes: seq<TreeNode>, e: FileEntry) {
    exists n :: n in nodes && OwnsFile(n, e)
  }

  predicate OwnsFile(n: TreeNode, e: FileEntry) {
    (n.entry == e && !e.isDirectory) || (n.Branch? && HasFile(n.children, e))
  }

  /** The flattened list holds exactly the non-directory entries of the tree. */
  lemma {:induction false} AllFilesExactly(nodes: seq<TreeNode>, e: FileEntry)
    ensures e in AllFiles(nodes) <==> HasFile(nodes, e)
    decreases nodes
  {
    if nodes != [] {
      var init := nodes[..|nodes| - 1];
      var last := nodes[|nodes| - 1];
      AllFilesExactly(init, e);
      OwnExactly(last, e);
      assert nodes == init + [last];
      assert HasFile(nodes, e) <==> HasFile(init, e) || OwnsFile(last, e);
    }
  }

  lemma {:induction false} OwnExactly(n: TreeNode, e: FileEntry)
    ensures e in Own(n) <==> OwnsFile(n, e)
    decreases n
  {
    if n.Branch? {
      AllFilesExactly(n.children, e);
    }
  }

  /** Some node of the tree, at any level, has the path `p`. */
  predicate HasPath(nodes: seq<TreeNode>, p: string) {
    exists n :: n in nodes && (n.entry.path == p || (n.Branch? && HasPath(n.children, p)))
  }

  /** Some node of the tree, at any level, has the entry `e`. */
  predicate HasEntry(nodes: seq<TreeNode>, e: FileEntry) {
    exists n :: n in nodes && (n.entry == e || (n.Branch? && HasEntry(n.children, e)))
  }

  /** `createFile`'s `findFile`: the first node in pre-order with path `p`. */
  function FindFile(nodes: seq<TreeNode>, p: string): Option<FileEntry>
    decreases nodes
  {
    if nodes == [] then None
    else if nodes[0].entry.path == p then Some(nodes[0].entry)
    else
      var inside := if nodes[0].Branch? then FindFile(nodes[0].children, p) else None;
      if inside.Some? then inside else FindFile(nodes[1..], p)
  }

  /** `findFile` finds a node exactly when the tree has one with that path, and
      what it finds is an entry of the tree with that path. */
  lemma {:induction false} FindFileSpec(nodes: seq<TreeNode>, p: string)
    ensures var r := FindFile(nodes, p);
      && (r.Some? <==> HasPath(nodes, p))
      && (r.Some? ==> r.value.path == p && HasEntry(nodes, r.value))
    decreases nodes
  {
    if nodes != [] {
      var head := nodes[0];
      var rest := nodes[1..];
      assert nodes == [head] + rest;
      assert HasPath(nodes, p) <==> (head.entry.path == p || (head.Branch? && HasPath(head.children, p))) || HasPath(rest, p) by {
        assert forall n :: n in nodes <==> n == head || n in rest;
      }
      if head.Branch? {
        FindFileSpec(head.children, p);
      }
      FindFileSpec(rest, p);
      var r := FindFile(nodes, p);
      if r.Some? {
        assert head in nodes;
        if head.entry.path != p {
          if !(head.Branch? && FindFile(head.children, p).Some?) {
            var n :| n in rest && (n.entry == r.value || (n.Branch? && HasEntry(n.children, r.value)));
            assert n in nodes;
          }
        }
      }
    }
  }
}
