/** The three lists the workspace store keeps: the expanded folders of the
    sidebar, the recent workspaces, and the most recently opened notes. */
module Recents {
  import opened Base
  import opened Files

  /** No element occurs twice. */
  predicate Unique<T(==)>(s: seq<T>) {
    forall i, j :: 0 <= i < j < |s| ==> s[i] != s[j]
  }

  /** `s.filter((q) => q !== p)`. */
  function Without(s: seq<string>, p: string): (r: seq<string>)
    ensures forall q :: q in r <==> q in s && q != p
    ensures |r| <= |s|
  {
    if s == [] then []
    else Without(s[..|s| - 1], p) + if s[|s| - 1] == p then [] else [s[|s| - 1]]
  }

  /** Filtering keeps a list without repetitions free of them. */
  lemma {:induction false} WithoutUnique(s: seq<string>, p: string)
    requires Unique(s)
    ensures Unique(Without(s, p))
  {
    if s != [] {
      var init := s[..|s| - 1];
      var last := s[|s| - 1];
      assert Unique(init);
      WithoutUnique(init, p);
      forall i | 0 <= i < |init|
        ensures init[i] != last
      {
        assert init[i] == s[i];
      }
      assert last !in Without(init, p);
    }
  }

  // ---------------------------------------------------------------------------
  // Expanded folders

  /** `toggleFolder(path, expanded)`: the flag (or, when absent, the opposite of
      the current state) says whether the folder should be expanded; expanding
      appends it only when absent, collapsing removes every occurrence. */
  function Toggled(paths: seq<string>, path: string, expanded: Option<bool>): seq<string> {
    var isExpanded := path in paths;
    if expanded.GetOr(!isExpanded) then
      if isExpanded then paths else paths + [path]
    else Without(paths, path)
  }

  /** After a toggle the folder is expanded exactly as asked (without a flag:
      exactly when it was not before), every other folder keeps its state, and
      a list without repetitions stays so. */
  lemma ToggledSpec(paths: seq<string>, path: string, expanded: Option<bool>)
    ensures path in Toggled(paths, path, expanded) <==> expanded.GetOr(path !in paths)
    ensures forall q :: q != path ==> (q in Toggled(paths, path, expanded) <==> q in paths)
    ensures Unique(paths) ==> Unique(Toggled(paths, path, expanded))
  {
    if Unique(paths) {
      WithoutUnique(paths, path);
    }
  }

  // ---------------------------------------------------------------------------
  // Recent workspaces

  /** `setWorkspacePath`: the path is appended to the recent workspaces unless present. */
  function Remembered(workspaces: seq<string>, path: string): seq<string> {
    if path in workspaces then workspaces else workspaces + [path]
  }

  /** The path is remembered afterwards, the earlier list is kept as a prefix in
      its order, at most one entry is added, and no repetition appears. */
  lemma RememberedSpec(workspaces: seq<string>, path: string)
    ensures var r := Remembered(workspaces, path);
      && path in r
      && r[..|workspaces|] == workspaces
      && |r| <= |workspaces| + 1
      && (Unique(workspaces) ==> Unique(r))
  {
  }

  // ---------------------------------------------------------------------------
  // Recent files

  const RecentLimit: nat := 10

  /** The notes other than those at `path`: `prev.filter((f) => f.path !== path)`. */
  function OtherPaths(files: seq<FileEntry>, path: string): (r: seq<FileEntry>)
    ensures forall f :: f in r <==> f in files && f.path != path
  {
    if files == [] then []
    else OtherPaths(files[..|files| - 1], path) + if files[|files| - 1].path == path then [] else [files[|files| - 1]]
  }

  /** No two entries share a path. */
  predicate DistinctPaths(files: seq<FileEntry>) {
    forall i, j :: 0 <= i < j < |files| ==> files[i].path != files[j].path
  }

  lemma {:induction false} OtherPathsDistinct(files: seq<FileEntry>, path: string)
    requires DistinctPaths(files)
    ensures DistinctPaths(OtherPaths(files, path))
  {
    if files != [] {
      var init := files[..|files| - 1];
      assert DistinctPaths(init);
      OtherPathsDistinct(init, path);
    }
  }

  /** `openFile`: the opened note goes first, any earlier entry with its path is
      dropped, and the list is cut to ten entries. */
  function Touched(recent: seq<FileEntry>, file: FileEntry): seq<FileEntry> {
    var all := [file] + OtherPaths(recent, file.path);
    if |all| <= RecentLimit then all else all[..RecentLimit]
  }

  /** After opening a note it heads the list, no other entry has its path, the
      list has at most ten entries, the others follow in their earlier order
      (the nine most recent of them), and distinct paths stay distinct. */
  lemma TouchedSpec(recent: seq<FileEntry>, file: FileEntry)
    ensures var r := Touched(recent, file);
      var others := OtherPaths(recent, file.path);
      && |r| <= RecentLimit
      && r[0] == file
      && (forall i :: 1 <= i < |r| ==> r[i].path != file.path)
      && r[1..] == others[..|r| - 1]
      && |r| == (if |others| < RecentLimit then |others| + 1 else RecentLimit)
      && (DistinctPaths(recent) ==> DistinctPaths(r))
  {
    var r := Touched(recent, file);
    var others := OtherPaths(recent, file.path);
    assert r[1..] == others[..|r| - 1] by {
      if |others| < RecentLimit {
        assert r == [file] + others;
      } else {
        assert r == ([file] + others)[..RecentLimit];
      }
    }
    forall i | 1 <= i < |r|
      ensures r[i].path != file.path
    {
      assert r[i] == others[i - 1];
      assert others[i - 1] in others;
    }
    if DistinctPaths(recent) {
      OtherPathsDistinct(recent, file.path);
      forall i, j | 0 <= i < j < |r|
        ensures r[i].path != r[j].path
      {
        if i > 0 {
          assert r[i] == others[i - 1] && r[j] == others[j - 1];
        }
      }
    }
  }

  /** A list headed by a note, with no other entry at its path and at most ten
      entries, is left as it is by opening that note. */
  lemma TouchedHead(r: seq<FileEntry>, file: FileEntry)
    requires r != [] && r[0] == file && |r| <= RecentLimit
    requires forall i :: 1 <= i < |r| ==> r[i].path != file.path
    ensures Touched(r, file) == r
  {
    OtherPathsHead(r, file);
    OtherPathsKeepsClean(r[1..], file.path);
    assert [file] + r[1..] == r;
  }

  /** Reopening the note at the head of the list changes nothing. */
  lemma TouchedTwice(recent: seq<FileEntry>, file: FileEntry)
    ensures Touched(Touched(recent, file), file) == Touched(recent, file)
  {
    TouchedSpec(recent, file);
    TouchedHead(Touched(recent, file), file);
  }

  /** Filtering out a path no entry has changes nothing. */
  lemma {:induction false} OtherPathsKeepsClean(files: seq<FileEntry>, path: string)
    requires forall i :: 0 <= i < |files| ==> files[i].path != path
    ensures OtherPaths(files, path) == files
  {
    if files != [] {
      var init := files[..|files| - 1];
      var last := files[|files| - 1];
      forall i | 0 <= i < |init|
        ensures init[i].path != path
      {
        assert init[i] == files[i];
      }
      OtherPathsKeepsClean(init, path);
      assert OtherPaths(files, path) == OtherPaths(init, path) + [last];
      assert init + [last] == files;
    }
  }

  /** Filtering a list headed by an entry with the filtered path drops the head. */
  lemma {:induction false} OtherPathsHead(files: seq<FileEntry>, file: FileEntry)
    requires files != [] && files[0] == file
    ensures OtherPaths(files, file.path) == OtherPaths(files[1..], file.path)
  {
    if |files| > 1 {
      var init := files[..|files| - 1];
      OtherPathsHead(init, file);
      assert init[1..] == files[1..][..|files| - 2];
    }
  }
}
