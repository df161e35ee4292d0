/** The workspace store: the editor's state record and the actions that update
    it. The same actions appear twice in the application, once with the client
    interface and notification function passed in and once bound to the
    desktop bridge and the toast queue. This class models the first; the
    second differs in updating the open note's entry in place on a rename or
    a move.

    The client interface is an oracle: reads (`readdir`, `read`, `search`,
    `getStatus`, `getIdentity`, `getConfig`) are functions of their arguments,
    and each request that changes the disk or the repository is recorded in
    `requests` and fails with the message `refuses` gives it, if any. The
    browser location's `workspace` and `page` parameters are the `location`
    field, and the error notifications shown to the user are `notices`. */
module Workspace {
  import opened Base
  import opened Text
  import opened Files
  import opened Paths
  import opened Frontmatter
  import opened FileTree
  import opened Recents

  datatype View = EditorView | HomeView

  datatype Theme = Light | Dark | System

  datatype State = State(
    root: string,
    currentPath: string,
    files: seq<TreeNode>,
    currentFile: Option<FileEntry>,
    fileContent: string,
    frontmatter: Fields,
    isDirty: bool,
    isPublished: bool,
    identity: Option<string>,
    recentWorkspaces: seq<string>,
    isSearchOpen: bool,
    isSettingsOpen: bool,
    activeView: View,
    expandedPaths: seq<string>,
    isPublishing: bool,
    recentFiles: seq<FileEntry>,
    theme: Theme,
    searchResults: seq<FileEntry>)

  /** `initialWorkspaceState`. */
  const Initial: State := State("", "", [], None, "", map[], false, true, None, [], false, false, HomeView, [], false, [], System, [])

  /** The requests that change the disk or the repository. */
  datatype Request =
    | MakeDir(path: string)
    | InitRepo(path: string)
    | WriteFile(path: string, content: string)
    | RenamePath(from: string, to: string)
    | DeletePath(path: string)
    | CopyPath(from: string, to: string)
    | PublishRepo(path: string)
    | FetchRepo(path: string)

  /** The client interface. `config` is absent when the client has no `app`
      capability; `search` is absent when it has no content search. */
  datatype Client = Client(
    config: Option<Result<string>>,
    readdir: Lister,
    read: string -> Result<string>,
    search: Option<(string, string) -> Result<seq<FileEntry>>>,
    status: string -> Result<bool>,
    identity: Result<string>,
    refuses: Request -> Option<string>)

  /** The `workspace` and `page` parameters of the browser location. */
  datatype Location = Location(workspace: Option<string>, page: Option<string>)

  const DefaultWorkspace: string := "my-workspace"

  const InitFailed: string := "Failed to initialize workspace"
  const CreateWorkspaceFailed: string := "Failed to create workspace"
  const RenameFailed: string := "Failed to rename file"
  const MoveFailed: string := "Failed to move file"
  const DeleteFailed: string := "Failed to delete file"
  const DuplicateFailed: string := "Failed to duplicate file"
  const ReadFailed: string := "Failed to read file"
  const SaveFailed: string := "Failed to save file"
  const PublishFailed: string := "Failed to publish"
  const CreateFileFailed: string := "Failed to create file"
  const CreateFolderFailed: string := "Failed to create folder"

  /** What every action keeps true of the state: the expanded folders and the
      recent workspaces have no repetitions, the recent notes are at most ten
      with distinct paths, no publish is in progress between actions, and the
      tree holds no ignored name and respects the depth cap. */
  predicate Valid(s: State) {
    && Unique(s.expandedPaths)
    && Unique(s.recentWorkspaces)
    && |s.recentFiles| <= RecentLimit && DistinctPaths(s.recentFiles)
    && !s.isPublishing
    && Clean(s.files) && Within(s.files, Levels(0))
  }

  /** `loadFiles`: with a workspace, the tree loaded from it replaces the files,
      unless loading throws. */
  function Reloaded(s: State, readdir: Lister, collate: Collation): State {
    if s.currentPath == "" then s
    else
      var tree := Load(readdir, collate, s.currentPath, 0);
      if tree.Ok? then s.(files := tree.value) else s
  }

  /** A successful `createFolder` expands the parent folder, when one was given. */
  function Expanded(s: State, parentPath: Option<string>): State {
    if parentPath.Some? && parentPath.value != "" then s.(expandedPaths := Toggled(s.expandedPaths, parentPath.value, Some(true))) else s
  }

  lemma ReloadedValid(s: State, readdir: Lister, collate: Collation)
    requires Valid(s)
    ensures Valid(Reloaded(s, readdir, collate))
  {
    LoadShape(readdir, collate, s.currentPath, 0);
  }

  /** The state after switching to the workspace at `path` (before loading it). */
  function Switched(s: State, path: string): State {
    s.(currentPath := path, recentWorkspaces := Remembered(s.recentWorkspaces, path))
  }

  /** The state after `openFile` has read the note's text. */
  function Opened(s: State, file: FileEntry, content: string, yaml: Yaml): State {
    var doc := Parse(content, yaml);
    s.(currentFile := Some(file), fileContent := doc.body, frontmatter := doc.frontmatter,
       isDirty := false, activeView := EditorView, recentFiles := Touched(s.recentFiles, file))
  }

  lemma OpenedValid(s: State, file: FileEntry, content: string, yaml: Yaml)
    requires Valid(s)
    ensures Valid(Opened(s, file, content, yaml))
  {
    TouchedSpec(s.recentFiles, file);
  }

  lemma SwitchedValid(s: State, path: string)
    requires Valid(s)
    ensures Valid(Switched(s, path))
  {
    RememberedSpec(s.recentWorkspaces, path);
  }

  /** `moveFile` after the rename: the open note follows when it was the moved
      one, and the destination folder is expanded. */
  function Moved(s: State, source: string, destDir: string): State {
    var current := s.currentFile;
    s.(currentFile := if current.Some? && current.value.path == source
                      then Some(current.value.(path := MoveTarget(source, destDir)))
                      else current,
       expandedPaths := Toggled(s.expandedPaths, destDir, Some(true)))
  }

  /** After a move the destination folder is expanded; a moved open note now
      sits in that folder under its old name, and any other open note is left
      alone. */
  lemma MovedSpec(s: State, source: string, destDir: string)
    ensures var t := Moved(s, source, destDir);
      && destDir in t.expandedPaths
      && (s.currentFile.Some? && s.currentFile.value.path == source ==>
            && t.currentFile.Some?
            && ParentDir(t.currentFile.value.path) == destDir
            && Basename(t.currentFile.value.path) == Basename(source))
      && (s.currentFile.None? || s.currentFile.value.path != source ==> t.currentFile == s.currentFile)
  {
    ToggledSpec(s.expandedPaths, destDir, Some(true));
    MoveTargetSpec(source, destDir);
  }

  lemma MovedValid(s: State, source: string, destDir: string)
    requires Valid(s)
    ensures Valid(Moved(s, source, destDir))
  {
    ToggledSpec(s.expandedPaths, destDir, Some(true));
  }

  /** A rename seen by the store: the open note takes the new name and path when
      it was the renamed one. */
  function Renamed(s: State, oldPath: string, newName: string): State {
    var current := s.currentFile;
    if current.Some? && current.value.path == oldPath
    then s.(currentFile := Some(current.value.(name := newName, path := RenameTarget(oldPath, newName))))
    else s
  }

  /** A renamed open note stays in its folder and its path ends with its new
      name; nothing else changes. */
  lemma RenamedSpec(s: State, oldPath: string, newName: string)
    requires '/' !in newName
    ensures var t := Renamed(s, oldPath, newName);
      && (s.currentFile.Some? && s.currentFile.value.path == oldPath ==>
            && t.currentFile.Some?
            && t.currentFile.value.name == newName
            && ParentDir(t.currentFile.value.path) == ParentDir(oldPath)
            && Basename(t.currentFile.value.path) == newName)
      && t == s.(currentFile := t.currentFile)
      && (Valid(s) ==> Valid(t))
  {
    RenameTargetSpec(oldPath, newName);
  }

  /** A deletion seen by the store: the open note is closed, and its text
      cleared, when it was the deleted one. */
  function Deleted(s: State, path: string): State {
    if s.currentFile.Some? && s.currentFile.value.path == path
    then s.(currentFile := None, fileContent := "")
    else s
  }

  /** The deleted path is never left open, and any other open note stays. */
  lemma DeletedSpec(s: State, path: string)
    ensures var t := Deleted(s, path);
      && (t.currentFile.Some? ==> t.currentFile.value.path != path)
      && (s.currentFile.Some? && s.currentFile.value.path != path ==> t == s)
      && (s.currentFile.Some? && s.currentFile.value.path == path ==> t.fileContent == "")
      && (Valid(s) ==> Valid(t))
  {
  }

  /** The client-side fallback of `performSearch`: the notes whose lowercased
      name contains the lowercased query, in order. */
  function NameMatches(files: seq<FileEntry>, query: string): seq<FileEntry> {
    if files == [] then []
    else
      var f := files[|files| - 1];
      NameMatches(files[..|files| - 1], query) + if Contains(Lower(f.name), Lower(query)) then [f] else []
  }

  /** The fallback search keeps exactly the files of the tree whose name matches. */
  lemma {:induction false} NameMatchesExactly(files: seq<FileEntry>, query: string, f: FileEntry)
    ensures f in NameMatches(files, query) <==> f in files && Contains(Lower(f.name), Lower(query))
  {
    if files != [] {
      NameMatchesExactly(files[..|files| - 1], query, f);
      assert files == files[..|files| - 1] + [files[|files| - 1]];
    }
  }

  /** `getAllFiles`'s `flatten`: the loop over the nodes, pushing each
      non-directory and appending what the recursion finds below a directory. */
  method Flatten(nodes: seq<TreeNode>) returns (res: seq<FileEntry>)
    ensures res == AllFiles(nodes)
    decreases nodes
  {
    res := [];
    for i := 0 to |nodes|
      invariant res == AllFiles(nodes[..i])
    {
      var node := nodes[i];
      assert nodes[..i + 1][..i] == nodes[..i];
      ghost var before := res;
      if !node.entry.isDirectory {
        res := res + [node.entry];
      }
      if node.Branch? {
        var below := Flatten(node.children);
        res := res + below;
      }
      assert res == before + Own(node);
    }
    assert nodes[..|nodes|] == nodes;
  }

  class WorkspaceStore {
    var state: State
    var location: Location
    var requests: seq<Request>
    var notices: seq<string>
    var intervals: nat
    const client: Client
    const yaml: Yaml
    const collate: Collation

    constructor(client: Client, yaml: Yaml, collate: Collation, location: Location)
      ensures state == Initial && Valid(state)
      ensures this.location == location && requests == [] && notices == [] && intervals == 0
      ensures this.client == client && this.yaml == yaml && this.collate == collate
    {
      this.client := client;
      this.yaml := yaml;
      this.collate := collate;
      this.location := location;
      state := Initial;
      requests := [];
      notices := [];
      intervals := 0;
    }

    /** Issues a request that changes the disk or the repository, and reports
        the error it throws, if any. */
    method Send(request: Request) returns (failure: Option<string>)
      modifies this
      ensures requests == old(requests) + [request] && failure == client.refuses(request)
      ensures unchanged(`state) && unchanged(`location) && unchanged(`notices)
      ensures unchanged(`intervals)
    {
      requests := requests + [request];
      failure := client.refuses(request);
    }

    /** `setTheme`. */
    method SetTheme(theme: Theme)
      modifies this
      ensures state == old(state).(theme := theme)
      ensures unchanged(`location) && unchanged(`requests) && unchanged(`notices)
      ensures Valid(old(state)) ==> Valid(state)
      ensures unchanged(`intervals)
    {
      state := state.(theme := theme);
    }

    /** `goHome`: back to the home view with no open note, and no page in the location. */
    method GoHome()
      modifies this
      ensures state == old(state).(activeView := HomeView, currentFile := None)
      ensures location == old(location).(page := None)
      ensures unchanged(`requests) && unchanged(`notices)
      ensures Valid(old(state)) ==> Valid(state)
      ensures unchanged(`intervals)
    {
      state := state.(activeView := HomeView, currentFile := None);
      location := location.(page := None);
    }

    /** `toggleSearch`: the panel is set as asked or flipped, and closing it
        always empties the results. */
    method ToggleSearch(isOpen: Option<bool>)
      modifies this
      ensures state.isSearchOpen == isOpen.GetOr(!old(state.isSearchOpen))
      ensures state == old(state).(isSearchOpen := state.isSearchOpen,
                                   searchResults := if state.isSearchOpen then old(state.searchResults) else [])
      ensures unchanged(`location) && unchanged(`requests) && unchanged(`notices)
      ensures Valid(old(state)) ==> Valid(state)
      ensures unchanged(`intervals)
    {
      var open := isOpen.GetOr(!state.isSearchOpen);
      state := state.(isSearchOpen := open);
      if !open {
        state := state.(searchResults := []);
      }
    }

    /** `toggleSettings`. */
    method ToggleSettings(isOpen: Option<bool>)
      modifies this
      ensures state == old(state).(isSettingsOpen := isOpen.GetOr(!old(state.isSettingsOpen)))
      ensures unchanged(`location) && unchanged(`requests) && unchanged(`notices)
      ensures Valid(old(state)) ==> Valid(state)
      ensures unchanged(`intervals)
    {
      state := state.(isSettingsOpen := isOpen.GetOr(!state.isSettingsOpen));
    }

    /** `toggleFolder`: the folder ends up expanded exactly as asked (flipped
        without a flag), every other folder keeps its state, and no folder is
        listed twice. */
    method ToggleFolder(path: string, expanded: Option<bool>)
      modifies this
      ensures state == old(state).(expandedPaths := Toggled(old(state.expandedPaths), path, expanded))
      ensures unchanged(`location) && unchanged(`requests) && unchanged(`notices)
      ensures Valid(old(state)) ==> Valid(state)
      ensures unchanged(`intervals)
    {
      ToggledSpec(state.expandedPaths, path, expanded);
      var isExpanded := path in state.expandedPaths;
      var shouldExpand := expanded.GetOr(!isExpanded);
      if shouldExpand {
        if !isExpanded {
          state := state.(expandedPaths := state.expandedPaths + [path]);
        }
      } else {
        state := state.(expandedPaths := Without(state.expandedPaths, path));
      }
    }

    /** `loadTree`: the loop over a directory's listing, skipping ignored names
        and descending into directories, then the sort. */
    method LoadTree(path: string, depth: nat) returns (r: Result<seq<TreeNode>>)
      ensures r == Load(client.readdir, collate, path, depth)
      decreases MaxDepth + 1 - depth
    {
      if depth > MaxDepth {
        return Ok([]);
      }
      var listed := client.readdir(path);
      if listed.Err? {
        return Err(listed.message);
      }
      var files := listed.value;
      var nodes: seq<TreeNode> := [];
      for i := 0 to |files|
        invariant Nodes(client.readdir, collate, files[..i], depth) == Ok(nodes)
      {
        var file := files[i];
        assert files[..i + 1][..i] == files[..i];
        if Ignored(file.name) {
          assert nodes + [] == nodes;
          continue;
        }
        if file.isDirectory {
          var sub := LoadTree(file.path, depth + 1);
          if sub.Err? {
            NodesErrorSticks(client.readdir, collate, files, i + 1, depth);
            return Err(sub.message);
          }
          nodes := nodes + [Branch(file, sub.value)];
        } else {
          nodes := nodes + [Leaf(file)];
        }
      }
      assert files[..|files|] == files;
      return Ok(Sort(collate, nodes));
    }

    /** `loadFiles`: loads the tree of the current workspace and, unless that
        throws or the workspace changed meanwhile, replaces the files. */
    method LoadFiles()
      modifies this
      ensures state == Reloaded(old(state), client.readdir, collate)
      ensures && state.currentPath == old(state.currentPath)
              && state.expandedPaths == old(state.expandedPaths)
              && state.recentWorkspaces == old(state.recentWorkspaces)
      ensures unchanged(`location) && unchanged(`requests) && unchanged(`notices)
      ensures Valid(old(state)) ==> Valid(state)
      ensures unchanged(`intervals)
    {
      if Valid(state) {
        ReloadedValid(state, client.readdir, collate);
      }
      var target := state.currentPath;
      if target == "" {
        return;
      }
      var tree := LoadTree(target, 0);
      if tree.Ok? && state.currentPath == target {
        state := state.(files := tree.value);
      }
    }

    /** `getAllFiles`: the non-directory entries of the tree, in pre-order. */
    method GetAllFiles() returns (r: seq<FileEntry>)
      ensures r == AllFiles(state.files)
      ensures forall e :: e in r <==> HasFile(state.files, e)
    {
      r := Flatten(state.files);
      forall e
        ensures e in r <==> HasFile(state.files, e)
      {
        AllFilesExactly(state.files, e);
      }
    }

    /** `setWorkspacePath`: switches to the workspace, puts it in the location
        with no page, remembers it (once), and loads its tree. */
    method SetWorkspacePath(path: string)
      modifies this
      ensures state == Reloaded(Switched(old(state), path), client.readdir, collate)
      ensures state.currentPath == path && path in state.recentWorkspaces
      ensures location == old(location).(workspace := Some(path), page := None)
      ensures unchanged(`requests) && unchanged(`notices) && intervals == old(intervals) + 1
      ensures Valid(old(state)) ==> Valid(state)
    {
      if Valid(state) {
        SwitchedValid(state, path);
      }
      state := state.(currentPath := path);
      location := location.(workspace := Some(path), page := None);
      if path !in state.recentWorkspaces {
        state := state.(recentWorkspaces := state.recentWorkspaces + [path]);
      }
      LoadFiles();
      StartSync();
    }

    /** `startSync`: starts one more periodic fetch, whatever runs already. */
    method StartSync()
      modifies this
      ensures intervals == old(intervals) + 1
      ensures unchanged(`state) && unchanged(`location) && unchanged(`requests) && unchanged(`notices)
    {
      intervals := intervals + 1;
    }

    /** One run of the periodic fetch: with a workspace, fetches it; a failure
        is only logged. */
    method SyncTick()
      modifies this
      ensures old(state.currentPath) == "" ==> unchanged(`requests)
      ensures old(state.currentPath) != "" ==> requests == old(requests) + [FetchRepo(old(state.currentPath))]
      ensures unchanged(`state) && unchanged(`location) && unchanged(`notices) && unchanged(`intervals)
    {
      if state.currentPath == "" {
        return;
      }
      var _ := Send(FetchRepo(state.currentPath));
    }

    /** `performSearch`: no workspace or an empty query clears the results;
        otherwise the client's content search decides them (a failed search
        leaves them as they were), or, without one, the files of the tree
        whose name contains the query. */
    method PerformSearch(query: string)
      modifies this
      ensures old(state.currentPath) == "" || query == "" ==> state == old(state).(searchResults := [])
      ensures old(state.currentPath) != "" && query != "" && client.search.Some? ==>
        var found := client.search.value(old(state.currentPath), query);
        state == if found.Ok? then old(state).(searchResults := found.value) else old(state)
      ensures old(state.currentPath) != "" && query != "" && client.search.None? ==>
        && state == old(state).(searchResults := NameMatches(AllFiles(old(state.files)), query))
        && forall e :: e in state.searchResults <==> HasFile(state.files, e) && Contains(Lower(e.name), Lower(query))
      ensures unchanged(`location) && unchanged(`requests) && unchanged(`notices)
      ensures Valid(old(state)) ==> Valid(state)
      ensures unchanged(`intervals)
    {
      if state.currentPath == "" || query == "" {
        state := state.(searchResults := []);
        return;
      }
      match client.search {
        case Some(search) =>
          var found := search(state.currentPath, query);
          if found.Ok? {
            state := state.(searchResults := found.value);
          }
        case None =>
          var all := GetAllFiles();
          state := state.(searchResults := NameMatches(all, query));
          forall e
            ensures e in state.searchResults <==> HasFile(state.files, e) && Contains(Lower(e.name), Lower(query))
          {
            NameMatchesExactly(all, query, e);
          }
      }
    }

    /** `createWorkspace`: with a root, creates the folder and a repository in
        it and switches to it; the first failure stops and is notified. */
    method CreateWorkspace(name: string)
      modifies this
      ensures old(state.root) == "" ==> unchanged(`state) && unchanged(`requests) && unchanged(`notices)
      ensures old(state.root) != "" ==>
        var path := JoinPath(old(state.root), name);
        if client.refuses(MakeDir(path)).Some? then
          && requests == old(requests) + [MakeDir(path)]
          && unchanged(`state) && notices == old(notices) + [CreateWorkspaceFailed] && unchanged(`intervals)
          && unchanged(`location)
        else
          && requests == old(requests) + [MakeDir(path)] + [InitRepo(path)]
          && if client.refuses(InitRepo(path)).Some? then
               unchanged(`state) && notices == old(notices) + [CreateWorkspaceFailed] && unchanged(`intervals)
               && unchanged(`location)
             else
               && state == Reloaded(Switched(old(state), path), client.readdir, collate)
               && state.currentPath == path && path in state.recentWorkspaces
               && unchanged(`notices) && intervals == old(intervals) + 1
               && location == old(location).(workspace := Some(path), page := None)
      ensures old(state.root) == "" ==> unchanged(`intervals) && unchanged(`location)
      ensures Valid(old(state)) ==> Valid(state)
    {
      if state.root == "" {
        return;
      }
      var path := JoinPath(state.root, name);
      var failure := Send(MakeDir(path));
      if failure.None? {
        failure := Send(InitRepo(path));
      }
      if failure.Some? {
        notices := notices + [CreateWorkspaceFailed];
        return;
      }
      SetWorkspacePath(path);
    }

    /** `renameFile`: renames the open note within its folder, unless the name
        is unchanged; on success the open note takes the new name and path. */
    method RenameFile(newName: string)
      modifies this
      ensures old(state.currentFile).None? ==> unchanged(`state) && unchanged(`requests) && unchanged(`notices)
      ensures old(state.currentFile).Some? ==>
        var oldPath := old(state.currentFile).value.path;
        var newPath := RenameTarget(oldPath, newName);
        if newPath == oldPath then unchanged(`state) && unchanged(`requests) && unchanged(`notices)
        else
          && requests == old(requests) + [RenamePath(oldPath, newPath)]
          && if client.refuses(RenamePath(oldPath, newPath)).Some? then
               unchanged(`state) && notices == old(notices) + [RenameFailed]
             else
               state == Reloaded(Renamed(old(state), oldPath, newName), client.readdir, collate) && unchanged(`notices)
      ensures unchanged(`location)
      ensures Valid(old(state)) ==> Valid(state)
      ensures unchanged(`intervals)
    {
      if state.currentFile.None? {
        return;
      }
      var current := state.currentFile.value;
      var newPath := RenameTarget(current.path, newName);
      if newPath == current.path {
        return;
      }
      var failure := Send(RenamePath(current.path, newPath));
      if failure.Some? {
        notices := notices + [RenameFailed];
        return;
      }
      state := state.(currentFile := Some(current.(name := newName, path := newPath)));
      LoadFiles();
    }

    /** `moveFile`: moves a note into a folder under its own name. Nothing
        happens when that is where it already is; on success the open note
        follows it if it was the one moved, and the folder is expanded. */
    method MoveFile(source: string, destDir: string) returns (moved: bool)
      modifies this
      ensures if MoveTarget(source, destDir) == source then
          !moved && unchanged(`state) && unchanged(`requests) && unchanged(`notices)
        else
          var rename := RenamePath(source, MoveTarget(source, destDir));
          && requests == old(requests) + [rename]
          && if client.refuses(rename).Some? then
               !moved && unchanged(`state) && notices == old(notices) + [MoveFailed]
             else
               moved && state == Reloaded(Moved(old(state), source, destDir), client.readdir, collate) && unchanged(`notices)
      ensures unchanged(`location) && unchanged(`intervals)
      ensures Valid(old(state)) ==> Valid(state)
    {
      moved := MoveAs(source, destDir, MoveTarget(source, destDir));
    }

    /** `moveFile` once its target path `newPath` is worked out (`MoveFile`
        passes `MoveTarget(source, destDir)`). */
    method MoveAs(source: string, destDir: string, newPath: string) returns (moved: bool)
      modifies this
      ensures if newPath == source then
          !moved && unchanged(`state) && unchanged(`requests) && unchanged(`notices)
        else
          && requests == old(requests) + [RenamePath(source, newPath)]
          && if client.refuses(RenamePath(source, newPath)).Some? then
               !moved && unchanged(`state) && notices == old(notices) + [MoveFailed]
             else
               moved && state == Reloaded(Moved(old(state), source, destDir), client.readdir, collate) && unchanged(`notices)
      ensures unchanged(`location) && unchanged(`intervals)
      ensures Valid(old(state)) ==> Valid(state)
    {
      moved := false;
      if newPath != source {
        var failure := Send(RenamePath(source, newPath));
        if failure.Some? {
          notices := notices + [MoveFailed];
        } else {
          FollowMove(source, destDir);
          moved := true;
        }
      }
    }

    /** The rest of `moveFile` once the rename succeeded: the open note follows
        it when it was the moved one, the destination folder is expanded, and
        the tree is reloaded. */
    method FollowMove(source: string, destDir: string)
      modifies this
      ensures state == Reloaded(Moved(old(state), source, destDir), client.readdir, collate)
      ensures unchanged(`location) && unchanged(`requests) && unchanged(`notices)
      ensures Valid(old(state)) ==> Valid(state)
      ensures unchanged(`intervals)
    {
      if Valid(state) {
        MovedValid(state, source, destDir);
      }
      if state.currentFile.Some? && state.currentFile.value.path == source {
        state := state.(currentFile := Some(state.currentFile.value.(path := MoveTarget(source, destDir))));
      }
      ToggleFolder(destDir, Some(true));
      LoadFiles();
    }

    /** `deleteFile`: deletes the path; on success the open note is closed and
        its text cleared only when it was the deleted one. */
    method DeleteFile(path: string)
      modifies this
      ensures requests == old(requests) + [DeletePath(path)]
      ensures client.refuses(DeletePath(path)).Some? ==> unchanged(`state) && notices == old(notices) + [DeleteFailed]
      ensures client.refuses(DeletePath(path)).None? ==>
        state == Reloaded(Deleted(old(state), path), client.readdir, collate) && unchanged(`notices)
      ensures unchanged(`location)
      ensures Valid(old(state)) ==> Valid(state)
      ensures unchanged(`intervals)
    {
      var failure := Send(DeletePath(path));
      if failure.Some? {
        notices := notices + [DeleteFailed];
        return;
      }
      if state.currentFile.Some? && state.currentFile.value.path == path {
        state := state.(currentFile := None, fileContent := "");
      }
      LoadFiles();
    }

    /** Issues a request whose success only reloads the tree: on failure the
        notice is shown and nothing else changes. */
    method SendAndReload(request: Request, notice: string)
      modifies this
      ensures requests == old(requests) + [request]
      ensures client.refuses(request).Some? ==> unchanged(`state) && notices == old(notices) + [notice]
      ensures client.refuses(request).None? ==>
        state == Reloaded(old(state), client.readdir, collate) && unchanged(`notices)
      ensures unchanged(`location) && unchanged(`intervals)
      ensures Valid(old(state)) ==> Valid(state)
    {
      var failure := Send(request);
      if failure.Some? {
        notices := notices + [notice];
      } else {
        LoadFiles();
      }
    }

    /** `duplicateFile`: copies the note next to itself under its copy name. */
    method DuplicateFile(path: string)
      modifies this
      ensures requests == old(requests) + [CopyPath(path, DuplicateTarget(path))]
      ensures client.refuses(CopyPath(path, DuplicateTarget(path))).Some? ==>
        unchanged(`state) && notices == old(notices) + [DuplicateFailed]
      ensures client.refuses(CopyPath(path, DuplicateTarget(path))).None? ==>
        state == Reloaded(old(state), client.readdir, collate) && unchanged(`notices)
      ensures unchanged(`location) && unchanged(`intervals)
      ensures Valid(old(state)) ==> Valid(state)
    {
      SendAndReload(CopyPath(path, DuplicateTarget(path)), DuplicateFailed);
    }

    /** `renameFileFromContextMenu`: renames any path within its folder; the
        open note takes the new name and path only when it was the renamed one. */
    method RenameFromContextMenu(oldPath: string, newName: string)
      modifies this
      ensures requests == old(requests) + [RenamePath(oldPath, RenameTarget(oldPath, newName))]
      ensures client.refuses(RenamePath(oldPath, RenameTarget(oldPath, newName))).Some? ==>
        unchanged(`state) && notices == old(notices) + [RenameFailed]
      ensures client.refuses(RenamePath(oldPath, RenameTarget(oldPath, newName))).None? ==>
        state == Reloaded(Renamed(old(state), oldPath, newName), client.readdir, collate) && unchanged(`notices)
      ensures unchanged(`location)
      ensures Valid(old(state)) ==> Valid(state)
      ensures unchanged(`intervals)
    {
      var newPath := RenameTarget(oldPath, newName);
      var failure := Send(RenamePath(oldPath, newPath));
      if failure.Some? {
        notices := notices + [RenameFailed];
        return;
      }
      if state.currentFile.Some? && state.currentFile.value.path == oldPath {
        state := state.(currentFile := Some(state.currentFile.value.(name := newName, path := newPath)));
      }
      LoadFiles();
    }

    /** `openFile`: a directory changes nothing. Otherwise the location's page
        becomes the note's path relative to the workspace (when there is one),
        and the note is read: its frontmatter and body are split, it becomes
        the open note in the editor, and it heads the recent notes. */
    method OpenFile(file: FileEntry)
      modifies this
      ensures file.isDirectory ==> unchanged(`state) && unchanged(`location) && unchanged(`notices)
      ensures !file.isDirectory ==>
        && location == (if old(state.currentPath) != "" then old(location).(page := Some(PageParam(old(state.currentPath), file.path))) else old(location))
        && var content := client.read(file.path);
           if content.Err? then unchanged(`state) && notices == old(notices) + [ReadFailed]
           else state == Opened(old(state), file, content.value, yaml) && unchanged(`notices)
      ensures state.currentPath == old(state.currentPath) && state.expandedPaths == old(state.expandedPaths)
      ensures !file.isDirectory && client.read(file.path).Ok? ==>
        && state.currentFile == Some(file) && state.activeView == EditorView
        && state.recentFiles == Touched(old(state.recentFiles), file)
        && unchanged(`notices)
      ensures unchanged(`requests)
      ensures Valid(old(state)) ==> Valid(state)
      ensures unchanged(`intervals)
    {
      if file.isDirectory {
        return;
      }
      if state.currentPath != "" {
        location := location.(page := Some(PageParam(state.currentPath, file.path)));
      }
      var content := client.read(file.path);
      if content.Err? {
        notices := notices + [ReadFailed];
        return;
      }
      if Valid(state) {
        OpenedValid(state, file, content.value, yaml);
      }
      var doc := Parse(content.value, yaml);
      state := state.(currentFile := Some(file), fileContent := doc.body, frontmatter := doc.frontmatter,
                      isDirty := false, activeView := EditorView);
      state := state.(recentFiles := Touched(state.recentFiles, file));
    }

    /** `checkGitStatus`: with a workspace, the note is published exactly when
        the repository is clean; a failing status query throws. */
    method CheckGitStatus() returns (r: Result<()>)
      modifies this
      ensures old(state.currentPath) == "" ==> r == Ok(()) && unchanged(`state)
      ensures old(state.currentPath) != "" ==>
        var dirty := client.status(old(state.currentPath));
        if dirty.Err? then r == Err(dirty.message) && unchanged(`state)
        else r == Ok(()) && state == old(state).(isPublished := !dirty.value)
      ensures unchanged(`location) && unchanged(`requests) && unchanged(`notices)
      ensures unchanged(`intervals)
    {
      if state.currentPath == "" {
        return Ok(());
      }
      var dirty := client.status(state.currentPath);
      if dirty.Err? {
        return Err(dirty.message);
      }
      state := state.(isPublished := !dirty.value);
      return Ok(());
    }

    /** `saveToDisk`: with an open note, writes its frontmatter (if any) and
        body to its path; only a successful write clears the dirty flag, and
        then the repository status is refreshed (its failure goes unobserved). */
    method SaveToDisk()
      modifies this
      ensures old(state.currentFile).None? ==> unchanged(`state) && unchanged(`requests) && unchanged(`notices)
      ensures old(state.currentFile).Some? ==>
        var write := WriteFile(old(state.currentFile).value.path, Serialize(Document(old(state.frontmatter), old(state.fileContent)), yaml));
        && requests == old(requests) + [write]
        && if client.refuses(write).Some? then unchanged(`state) && notices == old(notices) + [SaveFailed]
           else
             && unchanged(`notices)
             && !state.isDirty
             && state == old(state).(isDirty := false, isPublished := state.isPublished)
             && (old(state.currentPath) != "" && client.status(old(state.currentPath)).Ok? ==>
                   state.isPublished == !client.status(old(state.currentPath)).value)
             && (old(state.currentPath) == "" || client.status(old(state.currentPath)).Err? ==>
                   state.isPublished == old(state.isPublished))
      ensures unchanged(`location)
      ensures Valid(old(state)) ==> Valid(state)
      ensures unchanged(`intervals)
    {
      if state.currentFile.None? {
        return;
      }
      var content := Serialize(Document(state.frontmatter, state.fileContent), yaml);
      var failure := Send(WriteFile(state.currentFile.value.path, content));
      if failure.Some? {
        notices := notices + [SaveFailed];
        return;
      }
      state := state.(isDirty := false);
      var _ := CheckGitStatus();
    }

    /** `updateContent`: the editor's text replaces the body, marked dirty, and
        is saved. */
    method UpdateContent(content: string)
      modifies this
      ensures old(state.currentFile).None? ==> state == old(state).(fileContent := content, isDirty := true)
      ensures old(state.currentFile).Some? ==>
        requests == old(requests) + [WriteFile(old(state.currentFile).value.path, Serialize(Document(old(state.frontmatter), content), yaml))]
      ensures state.fileContent == content
      ensures unchanged(`location)
      ensures Valid(old(state)) ==> Valid(state)
      ensures unchanged(`intervals)
    {
      state := state.(fileContent := content, isDirty := true);
      SaveToDisk();
    }

    /** `updateProperty`: one frontmatter field is set, marked dirty, and saved. */
    method UpdateProperty(key: string, value: string)
      modifies this
      ensures old(state.currentFile).None? ==>
        state == old(state).(frontmatter := old(state.frontmatter)[key := value], isDirty := true)
      ensures old(state.currentFile).Some? ==>
        requests == old(requests) + [WriteFile(old(state.currentFile).value.path,
                                               Serialize(Document(old(state.frontmatter)[key := value], old(state.fileContent)), yaml))]
      ensures state.frontmatter == old(state.frontmatter)[key := value]
      ensures unchanged(`location)
      ensures Valid(old(state)) ==> Valid(state)
      ensures unchanged(`intervals)
    {
      state := state.(frontmatter := state.frontmatter[key := value], isDirty := true);
      SaveToDisk();
    }

    /** `publish`: with a workspace, marks a publish in progress, asks the
        repository to publish and refreshes its status (`PublishAndCheck`),
        and in every case ends with no publish in progress. */
    method Publish()
      modifies this
      ensures old(state.currentPath) == "" ==> unchanged(`state) && unchanged(`requests) && unchanged(`notices)
      ensures old(state.currentPath) != "" ==>
        var cwd := old(state.currentPath);
        var ok := client.refuses(PublishRepo(cwd)).None? && client.status(cwd).Ok?;
        && requests == old(requests) + [PublishRepo(cwd)]
        && !state.isPublishing
        && state == old(state).(isPublishing := false, isPublished := if ok then !client.status(cwd).value else old(state.isPublished))
        && notices == if ok then old(notices) else old(notices) + [PublishFailed]
      ensures unchanged(`location)
      ensures Valid(old(state)) ==> Valid(state)
      ensures unchanged(`intervals)
    {
      if state.currentPath == "" {
        return;
      }
      state := state.(isPublishing := true);
      PublishAndCheck();
      state := state.(isPublishing := false);
    }

    /** The body of `publish`'s `try`: the publish request, then the status
        refresh; a failure of either is notified and leaves the published flag
        as it was. */
    method PublishAndCheck()
      requires state.currentPath != ""
      modifies this
      ensures var cwd := old(state.currentPath);
        var ok := client.refuses(PublishRepo(cwd)).None? && client.status(cwd).Ok?;
        && requests == old(requests) + [PublishRepo(cwd)]
        && state == old(state).(isPublished := if ok then !client.status(cwd).value else old(state.isPublished))
        && notices == if ok then old(notices) else old(notices) + [PublishFailed]
      ensures unchanged(`location)
      ensures unchanged(`intervals)
    {
      var failure := Send(PublishRepo(state.currentPath));
      if failure.Some? {
        notices := notices + [PublishFailed];
        return;
      }
      var checked := CheckGitStatus();
      if checked.Err? {
        notices := notices + [PublishFailed];
      }
    }

    /** `createFile`: with a workspace, writes an empty note named with `.md`
        below the parent folder (or the workspace) and, when that succeeds,
        shows it (`ShowCreated`). */
    method CreateFile(name: string, parentPath: Option<string>) returns (created: Option<FileEntry>)
      modifies this
      ensures old(state.currentPath) == "" ==>
        created.None? && unchanged(`state) && unchanged(`requests) && unchanged(`notices)
      ensures old(state.currentPath) != "" ==>
        var path := CreateTarget(name, parentPath, old(state.currentPath));
        && requests == old(requests) + [WriteFile(path, "")]
        && (client.refuses(WriteFile(path, "")).Some? ==>
              created.None? && unchanged(`state) && notices == old(notices) + [CreateFileFailed])
        && (client.refuses(WriteFile(path, "")).None? ==>
              && created.Some? && created.value.path == path
              && (parentPath.Some? && parentPath.value != "" ==> parentPath.value in state.expandedPaths)
              && (!created.value.isDirectory && client.read(path).Ok? ==>
                    && state.currentFile == created
                    && |state.recentFiles| > 0 && state.recentFiles[0] == created.value
                    && state.activeView == EditorView
                    && unchanged(`notices)))
      ensures Valid(old(state)) ==> Valid(state)
      ensures unchanged(`intervals)
    {
      created := None;
      if state.currentPath == "" {
        return;
      }
      var path := CreateTarget(name, parentPath, state.currentPath);
      var failure := Send(WriteFile(path, ""));
      if failure.Some? {
        notices := notices + [CreateFileFailed];
        return;
      }
      var file := ShowCreated(MarkdownName(name), path, parentPath);
      created := Some(file);
    }

    /** The rest of `createFile` once the note is written: reload, expand the
        parent, and open the entry found in the tree at the note's path
        (reloading once more when it is not there yet) or, failing that, one
        made up from the name and path. The entry opened has the note's path,
        and a note that could be read is the open note and heads the recent
        notes. */
    method ShowCreated(filename: string, path: string, parentPath: Option<string>) returns (file: FileEntry)
      modifies this
      ensures var shown := Expanded(Reloaded(old(state), client.readdir, collate), parentPath);
        && file == FindFile(shown.files, path).GetOr(FileEntry(filename, path, false, true))
        && (file.isDirectory ==> state == shown && unchanged(`location) && unchanged(`notices))
        && (!file.isDirectory ==>
              location == if old(state.currentPath) != "" then old(location).(page := Some(PageParam(old(state.currentPath), path))) else old(location))
        && (!file.isDirectory && client.read(path).Err? ==> state == shown && notices == old(notices) + [ReadFailed])
        && (!file.isDirectory && client.read(path).Ok? ==> state == Opened(shown, file, client.read(path).value, yaml))
      ensures file.path == path
      ensures parentPath.Some? && parentPath.value != "" ==> parentPath.value in state.expandedPaths
      ensures !file.isDirectory && client.read(path).Ok? ==>
        && state.currentFile == Some(file)
        && |state.recentFiles| > 0 && state.recentFiles[0] == file
        && state.activeView == EditorView
        && unchanged(`notices)
      ensures unchanged(`requests)
      ensures Valid(old(state)) ==> Valid(state)
      ensures unchanged(`intervals)
    {
      file := FindCreated(filename, path, parentPath);
      assert |Touched(state.recentFiles, file)| > 0 && Touched(state.recentFiles, file)[0] == file by {
        TouchedSpec(state.recentFiles, file);
      }
      OpenFile(file);
    }

    /** Reloads, expands the parent, and picks the entry at the note's path:
        the one in the tree (after a second reload when it is not there yet)
        or one made up from the name and path. */
    method FindCreated(filename: string, path: string, parentPath: Option<string>) returns (file: FileEntry)
      modifies this
      ensures state == Expanded(Reloaded(old(state), client.readdir, collate), parentPath)
      ensures file == FindFile(state.files, path).GetOr(FileEntry(filename, path, false, true))
      ensures file.path == path
      ensures parentPath.Some? && parentPath.value != "" ==> parentPath.value in state.expandedPaths
      ensures unchanged(`location) && unchanged(`requests) && unchanged(`notices) && unchanged(`intervals)
      ensures Valid(old(state)) ==> Valid(state)
    {
      ghost var reloaded := Reloaded(old(state), client.readdir, collate);
      LoadFiles();
      if parentPath.Some? && parentPath.value != "" {
        ToggleFolder(parentPath.value, Some(true));
      }
      assert state == Expanded(reloaded, parentPath);
      var found := FindFile(state.files, path);
      if found.None? {
        LoadFiles();
        assert state == Expanded(reloaded, parentPath);
        found := FindFile(state.files, path);
      }
      file := found.GetOr(FileEntry(filename, path, false, true));
      assert file.path == path by {
        FindFileSpec(state.files, path);
      }
    }

    /** `createFolder`: with a workspace, makes the folder below the parent
        folder (or the workspace), reloads, and expands the parent. */
    method CreateFolder(name: string, parentPath: Option<string>)
      modifies this
      ensures old(state.currentPath) == "" ==> unchanged(`state) && unchanged(`requests) && unchanged(`notices)
      ensures old(state.currentPath) != "" ==>
        var path := JoinPath(TargetDir(parentPath, old(state.currentPath)), name);
        && requests == old(requests) + [MakeDir(path)]
        && if client.refuses(MakeDir(path)).Some? then
             unchanged(`state) && notices == old(notices) + [CreateFolderFailed]
           else
             && state == Expanded(Reloaded(old(state), client.readdir, collate), parentPath)
             && unchanged(`notices)
      ensures unchanged(`location) && unchanged(`intervals)
      ensures Valid(old(state)) ==> Valid(state)
    {
      if state.currentPath == "" {
        return;
      }
      var path := JoinPath(TargetDir(parentPath, state.currentPath), name);
      var failure := Send(MakeDir(path));
      if failure.Some? {
        notices := notices + [CreateFolderFailed];
        return;
      }
      LoadFiles();
      if parentPath.Some? && parentPath.value != "" {
        ToggleFolder(parentPath.value, Some(true));
      }
    }

    /** `loadIdentity`: the identity the client reports, if it reports one. */
    method LoadIdentity()
      modifies this
      ensures state == if client.identity.Ok? then old(state).(identity := Some(client.identity.value)) else old(state)
      ensures unchanged(`location) && unchanged(`requests) && unchanged(`notices) && unchanged(`intervals)
      ensures Valid(old(state)) ==> Valid(state)
    {
      var id := client.identity;
      if id.Ok? {
        state := state.(identity := Some(id.value));
      }
    }

    /** `logout`: forgets the identity. */
    method Logout()
      modifies this
      ensures state == old(state).(identity := None)
      ensures unchanged(`location) && unchanged(`requests) && unchanged(`notices) && unchanged(`intervals)
      ensures Valid(old(state)) ==> Valid(state)
    {
      state := state.(identity := None);
    }

    /** `init`: without the configuration capability, reopens the most recent
        workspace if there is one. With it, a failure to read the configuration
        is notified; otherwise the root is set, a workspace is chosen
        (`OpenStartWorkspace`), and a page named in the location is opened
        (`OpenPageLink`). */
    method Init()
      modifies this
      ensures client.config.None? ==>
        if |old(state.recentWorkspaces)| > 0 then
          state.currentPath == old(state.recentWorkspaces)[0] && unchanged(`requests)
        else unchanged(`state) && unchanged(`requests)
      ensures client.config.Some? && client.config.value.Err? ==>
        unchanged(`state) && unchanged(`requests) && notices == old(notices) + [InitFailed]
      ensures client.config.Some? && client.config.value.Ok? ==>
        var root := client.config.value.value;
        var asked := old(location.workspace);
        var recent := old(state.recentWorkspaces);
        var fallback := JoinPath(root, DefaultWorkspace);
        && state.root == root
        && (asked.Some? && asked.value != "" ==> state.currentPath == asked.value)
        && (!(asked.Some? && asked.value != "") && |recent| == 0 && root != "" ==>
              && state.currentPath == fallback
              && state.recentWorkspaces == [fallback]
              && requests == old(requests) + [MakeDir(fallback)])
        && (!(asked.Some? && asked.value != "") && |recent| > 0 ==> state.currentPath == recent[0])
        && (var page := old(location.page);
            page.Some? && page.value != "" && state.currentPath != ""
            && client.read(JoinPath(state.currentPath, page.value)).Ok? ==>
              && state.currentFile.Some?
              && state.currentFile.value.path == JoinPath(state.currentPath, page.value)
              && location.page == page)
      ensures Valid(old(state)) ==> Valid(state)
    {
      var recent := state.recentWorkspaces;
      if client.config.None? {
        if |recent| > 0 {
          SetWorkspacePath(recent[0]);
        }
        return;
      }
      var config := client.config.value;
      if config.Err? {
        notices := notices + [InitFailed];
        return;
      }
      var root := config.value;
      var urlWorkspace := location.workspace;
      var urlPage := location.page;
      state := state.(root := root);
      OpenStartWorkspace(root, recent, urlWorkspace);
      if urlPage.Some? && urlPage.value != "" && state.currentPath != "" {
        OpenPageLink(urlPage.value);
      }
    }

    /** The workspace `init` opens: the one named in the location, else a new
        `my-workspace` under the root when none is remembered (its folder is
        made, a failure ignored, and it becomes the only remembered one), else
        the first remembered one. */
    method OpenStartWorkspace(root: string, recent: seq<string>, asked: Option<string>)
      modifies this
      ensures state.root == old(state.root)
      ensures asked.Some? && asked.value != "" ==> state.currentPath == asked.value && unchanged(`requests)
      ensures !(asked.Some? && asked.value != "") && |recent| == 0 && root != "" ==>
        var fallback := JoinPath(root, DefaultWorkspace);
        && state.currentPath == fallback
        && state.recentWorkspaces == [fallback]
        && requests == old(requests) + [MakeDir(fallback)]
      ensures !(asked.Some? && asked.value != "") && |recent| > 0 ==>
        state.currentPath == recent[0] && unchanged(`requests)
      ensures !(asked.Some? && asked.value != "") && |recent| == 0 && root == "" ==>
        unchanged(`state) && unchanged(`requests) && unchanged(`location) && unchanged(`intervals)
      ensures asked.Some? && asked.value != "" ==>
        && state == Reloaded(Switched(old(state), asked.value), client.readdir, collate)
        && location == old(location).(workspace := Some(asked.value), page := None)
        && intervals == old(intervals) + 1
      ensures !(asked.Some? && asked.value != "") && |recent| == 0 && root != "" ==>
        var fallback := JoinPath(root, DefaultWorkspace);
        && state == Reloaded(Switched(old(state).(recentWorkspaces := [fallback]), fallback), client.readdir, collate)
        && location == old(location).(workspace := Some(fallback), page := None)
        && intervals == old(intervals) + 1
      ensures !(asked.Some? && asked.value != "") && |recent| > 0 ==>
        && state == Reloaded(Switched(old(state), recent[0]), client.readdir, collate)
        && location == old(location).(workspace := Some(recent[0]), page := None)
        && intervals == old(intervals) + 1
      ensures unchanged(`notices)
      ensures Valid(old(state)) ==> Valid(state)
    {
      if asked.Some? && asked.value != "" {
        SetWorkspacePath(asked.value);
      } else if |recent| == 0 && root != "" {
        var fallback := JoinPath(root, DefaultWorkspace);
        var _ := Send(MakeDir(fallback));
        state := state.(recentWorkspaces := [fallback]);
        SetWorkspacePath(fallback);
      } else if |recent| > 0 {
        SetWorkspacePath(recent[0]);
      }
    }

    /** The page link of `init`: the note at the page below the workspace,
        named by the page's last segment (or the whole page when that is
        empty). Its page parameter is the page again. */
    method OpenPageLink(page: string)
      requires state.currentPath != ""
      modifies this
      ensures var path := JoinPath(old(state.currentPath), page);
        var file := FileEntry(if Basename(page) != "" then Basename(page) else page, path, false, true);
        && location == old(location).(page := Some(page))
        && (client.read(path).Err? ==> unchanged(`state) && notices == old(notices) + [ReadFailed])
        && (client.read(path).Ok? ==> state == Opened(old(state), file, client.read(path).value, yaml) && unchanged(`notices))
      ensures var path := JoinPath(old(state.currentPath), page);
        client.read(path).Ok? ==>
          && state.currentFile.Some? && state.currentFile.value.path == path
          && location.page == Some(page)
      ensures state.root == old(state.root) && state.currentPath == old(state.currentPath)
      ensures state.recentWorkspaces == old(state.recentWorkspaces) && unchanged(`requests)
      ensures Valid(old(state)) ==> Valid(state)
      ensures unchanged(`intervals)
    {
      var name := if Basename(page) != "" then Basename(page) else page;
      var path := JoinPath(state.currentPath, page);
      PageParamRoundTrip(state.currentPath, page);
      OpenFile(FileEntry(name, path, false, true));
    }
  }
}
