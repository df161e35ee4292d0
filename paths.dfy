/** The path arithmetic of the workspace store: the last segment and parent of a
    path, the targets of a move, a rename, a new note and a duplicate, and the
    `page` parameter that names the open note relative to the workspace. */
module Paths {
  import opened Base
  import opened Text
  import opened Files

  /** `p.split('/').pop()`: everything after the last `/`, or all of `p`. */
  function Basename(p: string): string {
    AfterLast(p, '/')
  }

  /** `p.substring(0, p.lastIndexOf('/'))`: everything before the last `/`,
      or the empty string when there is none (the end index -1 is clamped to 0). */
  function ParentDir(p: string): string {
    Prefix(p, LastIndexOf(p, '/'))
  }

  /** `LastIndexOf` is pinned down by one occurrence with none after it. */
  lemma LastIndexOfAt(s: string, c: char, k: int)
    requires 0 <= k < |s| && s[k] == c
    requires forall j :: k < j < |s| ==> s[j] != c
    ensures LastIndexOf(s, c) == k
  {
  }

  /** Splitting `dir/name` at its last separator gives back `dir` and `name`. */
  lemma SplitJoined(dir: string, name: string)
    requires '/' !in name
    ensures ParentDir(JoinPath(dir, name)) == dir
    ensures Basename(JoinPath(dir, name)) == name
  {
    var p := JoinPath(dir, name);
    assert p[|dir|] == '/';
    forall j | |dir| < j < |p|
      ensures p[j] != '/'
    {
      assert p[j] == name[j - |dir| - 1];
    }
    LastIndexOfAt(p, '/', |dir|);
    assert p[..|dir|] == dir;
    assert p[|dir| + 1..] == name;
  }

  /** A path with a separator is its parent joined with its last segment. */
  lemma JoinSplit(p: string)
    requires '/' in p
    ensures JoinPath(ParentDir(p), Basename(p)) == p
  {
    var k := LastIndexOf(p, '/');
    assert k >= 0 by {
      var i :| 0 <= i < |p| && p[i] == '/';
    }
    assert p == p[..k] + "/" + p[k + 1..];
  }

  /** A path without a separator has an empty parent and is its own last segment. */
  lemma SplitBare(p: string)
    requires '/' !in p
    ensures ParentDir(p) == "" && Basename(p) == p
  {
  }

  // ---------------------------------------------------------------------------
  // Move and rename

  /** `moveFile`: the source's last segment placed below the destination folder. */
  function MoveTarget(source: string, destDir: string): string {
    JoinPath(destDir, Basename(source))
  }

  /** A move keeps the last segment and lands in the destination folder, and it
      leaves the path unchanged exactly when the source already sits directly in
      that folder, the one case where no rename is issued. */
  lemma MoveTargetSpec(source: string, destDir: string)
    ensures Basename(MoveTarget(source, destDir)) == Basename(source)
    ensures ParentDir(MoveTarget(source, destDir)) == destDir
    ensures MoveTarget(source, destDir) == source <==> '/' in source && ParentDir(source) == destDir
  {
    var t := MoveTarget(source, destDir);
    SplitJoined(destDir, Basename(source));
    if '/' in source && ParentDir(source) == destDir {
      JoinSplit(source);
    }
    if t == source {
      assert t[|destDir|] == '/';
    }
  }

  /** `renameFile` and `renameFileFromContextMenu`: the new name in the old path's folder. */
  function RenameTarget(oldPath: string, newName: string): string {
    JoinPath(ParentDir(oldPath), newName)
  }

  /** A rename stays in the same folder and takes the new name, and it leaves the
      path unchanged exactly when the new name is the old last segment. */
  lemma RenameTargetSpec(oldPath: string, newName: string)
    requires '/' !in newName
    ensures ParentDir(RenameTarget(oldPath, newName)) == ParentDir(oldPath)
    ensures Basename(RenameTarget(oldPath, newName)) == newName
    ensures RenameTarget(oldPath, newName) == oldPath <==> '/' in oldPath && Basename(oldPath) == newName
  {
    var t := RenameTarget(oldPath, newName);
    SplitJoined(ParentDir(oldPath), newName);
    if '/' in oldPath && Basename(oldPath) == newName {
      JoinSplit(oldPath);
    }
    if t == oldPath {
      assert t[|ParentDir(oldPath)|] == '/';
    }
  }

  // ---------------------------------------------------------------------------
  // New notes and folders

  /** `parentPath || currentPath`: an absent or empty parent falls back to the workspace. */
  function TargetDir(parentPath: Option<string>, currentPath: string): string {
    if parentPath.Some? && parentPath.value != "" then parentPath.value else currentPath
  }

  /** `createFile`'s file name: `.md` is appended unless the name already ends with it. */
  function MarkdownName(name: string): string {
    if EndsWith(name, ".md") then name else name + ".md"
  }

  /** The note's name always ends with `.md`, starts with the given name, equals it
      exactly when it already ended with `.md`, and naming twice changes nothing. */
  lemma MarkdownNameSpec(name: string)
    ensures EndsWith(MarkdownName(name), ".md")
    ensures StartsWith(MarkdownName(name), name)
    ensures MarkdownName(name) == name <==> EndsWith(name, ".md")
    ensures MarkdownName(MarkdownName(name)) == MarkdownName(name)
  {
    var m := name + ".md";
    assert m[|m| - 3..] == ".md";
    assert m[..|name|] == name;
  }

  /** `createFile`: the note's path below the chosen folder. */
  function CreateTarget(name: string, parentPath: Option<string>, currentPath: string): string {
    JoinPath(TargetDir(parentPath, currentPath), MarkdownName(name))
  }

  // ---------------------------------------------------------------------------
  // Duplicates

  /** `duplicateFile` as written: the extension is whatever follows the last `.`
      of the WHOLE path, the stem is the last segment with the first `.extension`
      removed, and the copy is `parent/stem copy.extension`. */
  function DuplicateTargetAsWritten(path: string): string {
    var extension := AfterLast(path, '.');
    var stem := ReplaceFirst(Basename(path), "." + extension, "");
    JoinPath(ParentDir(path), stem + " copy." + extension)
  }

  /** The copy's name for a file name: ` copy` goes before the last `.` of the
      name, or at its end when the name has no `.`. */
  function CopyName(name: string): string {
    var i := LastIndexOf(name, '.');
    if i < 0 then name + " copy" else name[..i] + " copy" + name[i..]
  }

  /** The duplicate's path: the copy name of the last segment, in the same folder. */
  function DuplicateTarget(path: string): string {
    JoinPath(ParentDir(path), CopyName(Basename(path)))
  }

  /** For `stem.ext` whose extension has no `.`, the copy is `stem copy.ext`;
      for a name with no `.` at all it is `name copy`. */
  lemma CopyNameSpec(stem: string, ext: string)
    requires '.' !in ext
    ensures CopyName(stem + "." + ext) == stem + " copy." + ext
    ensures '.' !in stem ==> CopyName(stem) == stem + " copy"
  {
    var n := stem + "." + ext;
    forall j | |stem| < j < |n|
      ensures n[j] != '.'
    {
      assert n[j] == ext[j - |stem| - 1];
    }
    LastIndexOfAt(n, '.', |stem|);
    assert n[..|stem|] == stem;
    assert n[|stem|..] == "." + ext;
  }

  /** The copy name has no separator when the name has none, and is five characters longer. */
  lemma CopyNameShape(name: string)
    requires '/' !in name
    ensures '/' !in CopyName(name)
    ensures |CopyName(name)| == |name| + 5
  {
    var i := LastIndexOf(name, '.');
    if i >= 0 {
      var c := CopyName(name);
      assert c == name[..i] + " copy" + name[i..];
      forall j | 0 <= j < |c|
        ensures c[j] != '/'
      {
        if j < i {
          assert c[j] == name[j];
        } else if j >= i + 5 {
          assert c[j] == name[j - 5];
        }
      }
    }
  }

  /** A duplicate is placed in the source's folder, its last segment is the copy
      name, and it never coincides with the source. */
  lemma DuplicateTargetSpec(path: string)
    ensures ParentDir(DuplicateTarget(path)) == ParentDir(path)
    ensures Basename(DuplicateTarget(path)) == CopyName(Basename(path))
    ensures DuplicateTarget(path) != path
  {
    var b := Basename(path);
    var c := CopyName(b);
    CopyNameShape(b);
    SplitJoined(ParentDir(path), c);
    var d := DuplicateTarget(path);
    assert d[|ParentDir(path)|] in d;
    if '/' in path {
      JoinSplit(path);
    }
  }

  /** The first occurrence of `.ext` in `stem.ext` is the separating dot when the stem has no dot. */
  lemma StripExtension(stem: string, ext: string)
    requires '.' !in stem
    ensures ReplaceFirst(stem + "." + ext, "." + ext, "") == stem
  {
    var n := stem + "." + ext;
    var t := "." + ext;
    IndexOfFromSpec(n, t, 0);
    assert n[|stem|..|stem| + |t|] == t;
    var r := IndexOf(n, t);
    assert OccursAt(n, t, |stem|);
    forall i | 0 <= i < |stem|
      ensures !OccursAt(n, t, i)
    {
      assert n[i] == stem[i];
      assert stem[i] in stem;
    }
    assert r == |stem|;
    assert n[..r] == stem;
    assert n[r + |t|..] == "";
  }

  /** For a single-dot name `stem.ext` under a folder, the code as written does
      produce `parent/stem copy.ext`, in agreement with `DuplicateTarget`. */
  lemma DuplicateAsWrittenSingleDot(dir: string, stem: string, ext: string)
    requires '.' !in stem && '/' !in stem && '.' !in ext && '/' !in ext
    ensures DuplicateTargetAsWritten(JoinPath(dir, stem + "." + ext)) == JoinPath(dir, stem + " copy." + ext)
    ensures DuplicateTarget(JoinPath(dir, stem + "." + ext)) == JoinPath(dir, stem + " copy." + ext)
  {
    var name := stem + "." + ext;
    var p := JoinPath(dir, name);
    assert '/' !in name by {
      forall j | 0 <= j < |name|
        ensures name[j] != '/'
      {
        if j < |stem| {
          assert name[j] == stem[j];
        } else if j > |stem| {
          assert name[j] == ext[j - |stem| - 1];
        }
      }
    }
    SplitJoined(dir, name);
    forall j | |p| - |ext| <= j < |p|
      ensures p[j] != '.'
    {
      assert p[j] == ext[j - (|p| - |ext|)];
    }
    assert p[|p| - |ext| - 1] == '.';
    LastIndexOfAt(p, '.', |p| - |ext| - 1);
    assert AfterLast(p, '.') == ext;
    StripExtension(stem, ext);
    CopyNameSpec(stem, ext);
  }

  /** When the path has no dot at all, the code as written takes the whole path
      as the "extension", keeps the name whole, and appends ` copy.` and the
      whole path to it. */
  lemma DuplicateAsWrittenNoDot(dir: string, name: string)
    requires '/' !in name
    requires '.' !in JoinPath(dir, name)
    ensures DuplicateTargetAsWritten(JoinPath(dir, name)) == JoinPath(dir, name + " copy." + JoinPath(dir, name))
  {
    var p := JoinPath(dir, name);
    SplitJoined(dir, name);
    assert LastIndexOf(p, '.') == -1;
    assert AfterLast(p, '.') == p;
    assert IndexOf(name, "." + p) == -1;
  }

  /** The discrepancy on one input: the code as written copies `/ws/LICENSE`
      to `/ws/LICENSE copy./ws/LICENSE`, a name holding the whole path. */
  lemma DuplicateLicenseAsWritten(path: string)
    requires path == "/ws/LICENSE"
    ensures DuplicateTargetAsWritten(path) == JoinPath(ParentDir(path), Basename(path) + " copy." + path)
  {
    assert JoinPath("/ws", "LICENSE") == path;
    SplitJoined("/ws", "LICENSE");
    DuplicateAsWrittenNoDot("/ws", "LICENSE");
  }

  /** The same input under the corrected naming: the copy is `/ws/LICENSE copy`. */
  lemma DuplicateLicense(path: string)
    requires path == "/ws/LICENSE"
    ensures DuplicateTarget(path) == JoinPath(ParentDir(path), Basename(path) + " copy")
  {
    var name := "LICENSE";
    assert JoinPath("/ws", name) == path;
    assert forall j | 0 <= j < |name| :: name[j] != '/' && name[j] != '.';
    SplitJoined("/ws", name);
    CopyNameSpec(name, "");
    assert CopyName(Basename(path)) == name + " copy";
  }

  /** The pieces of `/w/a.bc.b`: folder `/w`, name `a.bc.b`, and `b` after the path's last `.`. */
  lemma EarlierExtPieces(path: string, name: string)
    requires path == "/w/a.bc.b" && name == "a.bc.b"
    ensures ParentDir(path) == "/w" && Basename(path) == name
    ensures AfterLast(path, '.') == "b"
  {
    assert JoinPath("/w", name) == path;
    assert '/' !in name by {
      assert name[0] != '/' && name[1] != '/' && name[2] != '/' && name[3] != '/' && name[4] != '/' && name[5] != '/';
    }
    SplitJoined("/w", name);
    LastIndexOfAt(path, '.', 7);
  }

  /** `"a.bc.b".replace(".b", "")` removes the first `.b`. */
  lemma EarlierExtStripped(name: string)
    requires name == "a.bc.b"
    ensures ReplaceFirst(name, ".b", "") == "ac.b"
  {
    IndexOfFromSpec(name, ".b", 0);
    assert OccursAt(name, ".b", 1);
    assert !OccursAt(name, ".b", 0) by {
      assert name[0..2][0] == 'a';
    }
  }

  /** A second discrepancy, for a name with an earlier `.ext`: the code as
      written removes the FIRST `.b` of `a.bc.b`, so the copy of `/w/a.bc.b` is
      `/w/ac.b copy.b`. */
  lemma DuplicateEarlierExtAsWritten(path: string)
    requires path == "/w/a.bc.b"
    ensures DuplicateTargetAsWritten(path) == "/w/ac.b copy.b"
  {
    EarlierExtPieces(path, "a.bc.b");
    EarlierExtStripped("a.bc.b");
    var ext := AfterLast(path, '.');
    assert "." + ext == ".b";
    var stem := ReplaceFirst(Basename(path), "." + ext, "");
    assert DuplicateTargetAsWritten(path) == JoinPath(ParentDir(path), stem + " copy." + ext);
  }

  /** The same input under the corrected naming: the copy is `/w/a.bc copy.b`. */
  lemma DuplicateEarlierExt(path: string)
    requires path == "/w/a.bc.b"
    ensures DuplicateTarget(path) == "/w/a.bc copy.b"
  {
    var name := "a.bc.b";
    EarlierExtPieces(path, name);
    LastIndexOfAt(name, '.', 4);
    assert CopyName(name) == name[..4] + " copy" + name[4..];
  }

  // ---------------------------------------------------------------------------
  // The page parameter

  /** `s.substring(start)`: empty when `start` is past the end. */
  function Suffix(s: string, start: nat): string {
    if start >= |s| then [] else s[start..]
  }

  /** `openFile` as written: when the note's path starts with the workspace path,
      the page is the rest after one more character, which is assumed to be `/`. */
  function PageParamAsWritten(currentPath: string, filePath: string): string {
    if StartsWith(filePath, currentPath) then Suffix(filePath, |currentPath| + 1) else filePath
  }

  /** The page parameter: the path below the workspace when the note lies inside
      it, otherwise the whole path. */
  function PageParam(currentPath: string, filePath: string): string {
    if StartsWith(filePath, currentPath + "/") then filePath[|currentPath| + 1..] else filePath
  }

  /** The page parameter of a note inside the workspace is its relative path, and
      `init` joining it back onto the workspace reopens the same note. */
  lemma PageParamRoundTrip(currentPath: string, relative: string)
    ensures PageParam(currentPath, JoinPath(currentPath, relative)) == relative
    ensures PageParamAsWritten(currentPath, JoinPath(currentPath, relative)) == relative
  {
    var p := JoinPath(currentPath, relative);
    assert p[..|currentPath| + 1] == currentPath + "/";
    assert p[..|currentPath|] == currentPath;
    assert p[|currentPath| + 1..] == relative;
  }

  /** Every note inside the workspace is reopened from its page parameter. */
  lemma PageParamReopens(currentPath: string, filePath: string)
    requires StartsWith(filePath, currentPath + "/")
    ensures JoinPath(currentPath, PageParam(currentPath, filePath)) == filePath
  {
    assert filePath == filePath[..|currentPath| + 1] + filePath[|currentPath| + 1..];
  }

  /** With a workspace, the code as written and the corrected page differ
      exactly for a note whose path starts with the workspace path but not
      with the workspace path followed by `/`. */
  lemma PageParamDiffers(currentPath: string, filePath: string)
    requires currentPath != ""
    ensures PageParamAsWritten(currentPath, filePath) != PageParam(currentPath, filePath)
      <==> StartsWith(filePath, currentPath) && !StartsWith(filePath, currentPath + "/")
  {
    var c := currentPath;
    if StartsWith(filePath, c + "/") {
      assert filePath[..|c|] == (c + "/")[..|c|] == c;
    } else if StartsWith(filePath, c) {
      assert |Suffix(filePath, |c| + 1)| < |filePath|;
    }
  }

  /** A sibling folder whose name extends the workspace's: the code as written
      strips the workspace prefix anyway, and the page no longer leads back. */
  lemma PageParamAsWrittenSibling()
    ensures PageParamAsWritten("/ws", "/ws2/a.md") == "/a.md"
    ensures JoinPath("/ws", PageParamAsWritten("/ws", "/ws2/a.md")) != "/ws2/a.md"
    ensures PageParam("/ws", "/ws2/a.md") == "/ws2/a.md"
  {
    assert "/ws2/a.md"[..3] == "/ws";
    assert "/ws2/a.md"[4..] == "/a.md";
    assert !StartsWith("/ws2/a.md", "/ws/") by {
      assert "/ws2/a.md"[..4][3] == '2';
    }
    assert JoinPath("/ws", "/a.md")[3] != "/ws2/a.md"[3];
  }
}
