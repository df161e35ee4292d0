# rad-cms core, modelled in Dafny

rad-cms is a note editor. It keeps a folder of Markdown notes as a Git
repository and publishes it to the Radicle network. This project models
three sequential parts of the application and proves what they promise.

1. **The server side**: `createRadicleService` and `AppController`.
   - The repository service runs `git` and `rad` processes.
   - Each process gets a sandboxed environment built from an allow-list.
   - A process's exit code and output become either a trimmed result or an error text.
   - `init`, `publish`, `fetch`, `status` and `auth` are fixed command sequences.
   - `nodeStart` launches the node detached and polls its status at most 20 times.
   - The controller derives the profile home `userDataPath/radicle-env`.
   - Publish and fetch start the node and retry once when the error says `node must be running`.
   - The identity query creates a profile and retries once when the profile is missing.
   - `handleFsSearch` walks a directory tree and matches on file content.
   - The operating system is a `ProcessHost` oracle. It answers the k-th process with `replies(k)`, refuses the k-th directory request with the message `dirReplies(k)` or makes the directory, and logs every request.
   - Each operation is specified as a `Trace`: its result, the events it logs, and the replies it consumes.
   - Each method is proved to follow its trace.
2. **The workspace store** (`createWorkspaceStore`, and the client's near-identical `workspaceStore`).
   - One class, `Workspace.WorkspaceStore`, holds the 18-field state record.
   - The client interface is an oracle. Reads are functions of their arguments.
   - Requests that change the disk or the repository are logged and may be refused with an error.
   - Error notifications are kept in `notices`. The browser location is the `location` field.
   - Pure parts sit in their own modules:
     - `Paths`: move, rename, create and duplicate targets, and the `page` parameter.
     - `Recents`: expanded folders, recent workspaces, and the 10-entry recent-notes list.
     - `FileTree`: loading the tree with the ignore list, directories first and the depth cap; flattening; finding a path.
     - `Frontmatter`: splitting a note around its `---` frame and putting it back together.
3. **The toast queue** (`toastStore`).
   - `add` appends a toast and may schedule a timer.
   - `remove` filters toasts by id.
   - A scheduled removal is a pending `Timer` value, which `Expire` fires.

Paths below are relative to the repository root. The workspace rows cite
`packages/api/src/workspace.ts`. `packages/client/src/store/workspace.ts`
performs the same actions at shifted lines; its differences are covered
under "Left out".

## Model

| member | source | states |
|---|---|---|
| RadicleGit.ChildEnvContents | packages/server/src/services/RadicleGit.ts:31-50 | The child's keys are exactly the allow-listed variables the host defines, plus `RAD_HOME`, plus the keys of `extraEnv`. `extraEnv` wins on every key it names. `RAD_HOME` is the profile home unless overridden. A copied host variable keeps the host's value. |
| RadicleGit.InheritedContents | packages/server/src/services/RadicleGit.ts:42-48 | The allow-list loop copies a listed variable exactly when the host defines it, over a start map that holds only `RAD_HOME`. |
| RadicleGit.BuildEnv | packages/server/src/services/RadicleGit.ts:42-50 | The loop, followed by `Object.assign`, builds exactly the child environment that `ChildEnvContents` characterises. |
| RadicleGit.Collect | packages/server/src/services/RadicleGit.ts:58-71 | The `data` listeners accumulate the concatenation of the chunks, in order. |
| RadicleGit.CodeOfRendered | packages/server/src/services/RadicleGit.ts:80 | The exit code written into a failure message can be read back unchanged, whatever text follows it. |
| RadicleGit.FailureCarriesCode | packages/server/src/services/RadicleGit.ts:73-82 | A non-zero exit always fails. The error carries that exact code and ends with stderr, or with stdout when stderr is empty. |
| RadicleGit.SignalledCarriesNoCode | packages/server/src/services/RadicleGit.ts:73-82 | A process ended by a signal (code `null`) fails, and its message carries no numeric code. |
| Text.TrimEmptyIffBlank | packages/server/src/services/RadicleGit.ts:75 | `trim` yields the empty text exactly when the text is all whitespace. |
| Text.TrimIdempotent | packages/server/src/services/RadicleGit.ts:75 | Trimming twice is trimming once. |
| RadicleGit.Service.constructor | packages/server/src/services/RadicleGit.ts:13-15 | An absent `git` or `rad` binary path defaults to `git` or `rad`. |
| RadicleGit.Service.Exec | packages/server/src/services/RadicleGit.ts:17-88 | One process runs, with `git`/`rad` mapped to their binaries and any other command used unchanged, and with the sandboxed environment. Exit 0 gives trimmed stdout. Any other exit gives the coded failure message. A spawn error passes through unchanged. |
| RadicleGit.Service.RunStep | packages/server/src/services/RadicleGit.ts:90-111 | An awaited step discards its output, and its failure is rethrown unchanged. |
| RadicleGit.FirstFailureIsFirst | packages/server/src/services/RadicleGit.ts:94-98 | Every reply before the first failing one succeeds, and the reply at that index fails. |
| RadicleGit.RunStepsEvents | packages/server/src/services/RadicleGit.ts:94-98 | A command sequence runs its steps strictly in order, one process and one reply each, up to and including the first failing step and no further. |
| RadicleGit.RunStepsCounts | packages/server/src/services/RadicleGit.ts:94-98 | Each reply a sequence consumes belongs to one process it ran to completion, at most one per step. Nothing is detached. |
| RadicleGit.RunStepsResult | packages/server/src/services/RadicleGit.ts:94-98 | A sequence succeeds exactly when every step succeeds. Otherwise it throws the first failure's error unchanged. |
| RadicleGit.RunStepsConcat | packages/server/src/services/RadicleGit.ts:94-98 | Running `a + b` runs `a`, then runs `b` on the following replies only if `a` succeeded. |
| RadicleGit.RunsCounts | packages/server/src/services/RadicleGit.ts:94-98 | The processes listed for a sequence are one per step, all run to completion. |
| RadicleGit.SingleStep | packages/server/src/services/RadicleGit.ts:90-102 | A one-command operation runs its command once and settles as the executor does. |
| RadicleGit.PublishSequence | packages/server/src/services/RadicleGit.ts:94-98 | `publish` issues `git add .`, `git commit -m message` and `rad sync`, in that order, each only after the previous one succeeded. It succeeds exactly when all three do, and otherwise rethrows the failing step's error. |
| RadicleGit.PublishCases | packages/server/src/services/RadicleGit.ts:94-98 | The four possible outcomes of `publish`, spelled out: the steps that ran, and the result of each case. |
| RadicleGit.AuthPassphraseEmpty | packages/server/src/services/RadicleGit.ts:109-111 | `auth` runs `rad auth --alias <alias>` once, on the `rad` binary, with `RAD_PASSPHRASE` set to the empty string. |
| RadicleGit.StatusDirtyIffNonBlank | packages/server/src/services/RadicleGit.ts:104-107 | `status` answers exactly when `git status --porcelain` exits with 0. It then reports dirty exactly when the output holds a non-whitespace character. A failure is rethrown and never read as clean. |
| RadicleGit.Service.Init | packages/server/src/services/RadicleGit.ts:90-92 | Follows the `init` trace: one `rad init --private --no-confirm`. |
| RadicleGit.Service.Publish | packages/server/src/services/RadicleGit.ts:94-98 | Follows the `publish` trace: its result, its logged processes and the replies it consumes. |
| RadicleGit.Service.Fetch | packages/server/src/services/RadicleGit.ts:100-102 | Follows the `fetch` trace: one `rad sync --fetch`. |
| RadicleGit.Service.Status | packages/server/src/services/RadicleGit.ts:104-107 | Follows the `status` trace: non-empty trimmed output means dirty. |
| RadicleGit.Service.Auth | packages/server/src/services/RadicleGit.ts:109-111 | Follows the `auth` trace. |
| RadicleGit.NodeIsStoppedMentionsStopped | packages/server/src/services/RadicleGit.ts:153 | The second "stopped" test of the poll is implied by the first. |
| RadicleGit.FirstRunningIsFirst | packages/server/src/services/RadicleGit.ts:146-164 | No status answer before the first "running" one reports running, and that one does. |
| RadicleGit.FirstRunningUnique | packages/server/src/services/RadicleGit.ts:146-164 | Any offset with no running answer before it, and a running answer at it, is the first running offset. |
| RadicleGit.ProbeCounts | packages/server/src/services/RadicleGit.ts:147-151 | One attempt waits once and runs exactly one status query. |
| RadicleGit.PollsCounts | packages/server/src/services/RadicleGit.ts:146-164 | k attempts run exactly k status queries and launch nothing. |
| RadicleGit.PollPhaseCounts | packages/server/src/services/RadicleGit.ts:146-164 | The polling phase consumes one reply per status query. |
| RadicleGit.NodeStartCounts | packages/server/src/services/RadicleGit.ts:113-166 | `nodeStart` launches exactly one detached node and runs at most 20 queries, one reply each. |
| RadicleGit.NodeStartBounded | packages/server/src/services/RadicleGit.ts:146-165 | `nodeStart` issues between 1 and 20 status queries and returns normally whatever the answers. It stops right after the first answer that reports the node running, and before then none reported it. |
| RadicleGit.Service.Poll | packages/server/src/services/RadicleGit.ts:147-155 | One attempt waits 500 ms and runs one `rad node status`. It counts as running exactly when the query succeeded and the output does not mention `stopped`. |
| RadicleGit.Service.AwaitNode | packages/server/src/services/RadicleGit.ts:146-164 | The loop stops at the first running answer, within the budget of 20, and then waits the 1000 ms grace. No earlier answer reported running. Its log is the polling phase. |
| RadicleGit.Service.NodeStart | packages/server/src/services/RadicleGit.ts:113-166 | Follows the `nodeStart` trace. The detached launch carries the whole host environment with `RAD_HOME` pinned. |
| Controller.AppController.constructor | packages/server/src/controllers/AppController.ts:11-19 | The profile home is `userDataPath/radicle-env`, and the service uses it. Binary paths come from `GIT_BINARY_PATH` / `RAD_BINARY_PATH` when the host defines them, otherwise the defaults. |
| Controller.ProfileHomePinned | packages/server/src/controllers/AppController.ts:11-18 | Every process the service runs for the controller sees the controller's profile home as `RAD_HOME`, whatever the host environment holds. |
| Controller.AppController.HandleNodeStart | packages/server/src/controllers/AppController.ts:21-23 | A single blocking `rad node start` in the profile home, settled like any other command. |
| Controller.Attempt | packages/server/src/controllers/AppController.ts:117-143 | Each reply one attempt consumes is a process it ran, at most 3 for publish and 1 for fetch, and nothing is detached. |
| Controller.StartAfter | packages/server/src/controllers/AppController.ts:121-123 | The node start after a failed attempt runs at most 20 processes and launches exactly one detached node. |
| Controller.RecoverNodeFacts | packages/server/src/controllers/AppController.ts:117-143 | The node is started exactly when the first attempt failed for want of a node, and then exactly once. The retry's result is final. Any other outcome of the first attempt is returned unchanged, with no node started. |
| Controller.RecoveryBounded | packages/server/src/controllers/AppController.ts:117-143 | For publish and fetch: a `node must be running` error leads to exactly one node start and one retry, whose outcome, error included, reaches the caller. Any other error is rethrown unchanged and the node is never started. At most 26 processes run for publish and 22 for fetch. |
| Controller.AppController.Try | packages/server/src/controllers/AppController.ts:117-119 | One attempt follows the publish or fetch trace. |
| Controller.AppController.Recover | packages/server/src/controllers/AppController.ts:117-143 | Follows the recovery trace that `RecoveryBounded` characterises. |
| Controller.AppController.HandleGitPublish | packages/server/src/controllers/AppController.ts:117-129 | Follows the recovery trace for publish. |
| Controller.AppController.HandleGitFetch | packages/server/src/controllers/AppController.ts:131-143 | Follows the recovery trace for fetch. |
| Controller.GitInitNeverThrows | packages/server/src/controllers/AppController.ts:106-115 | `handleGitInit` never throws. It runs `git init`, and runs `rad init` after it exactly when `git init` succeeded. |
| Controller.AppController.HandleGitInit | packages/server/src/controllers/AppController.ts:106-115 | Follows that trace. |
| Controller.AppController.HandleGitGetStatus | packages/server/src/controllers/AppController.ts:145-147 | Passes the service's `status` through, as the status trace describes. |
| Controller.IdentityRecovery | packages/server/src/controllers/AppController.ts:149-166 | The profile home is made, and `rad self` runs only if that did not throw. The first error, or the answer, is final when it is not a missing-profile or `ENOENT` failure, and then nothing else runs. Otherwise the home is made again, and an error there is rethrown before any process runs. Then `auth` runs exactly once, with alias `rad-cms-user` in the profile home, and its error is rethrown. Only after `auth` succeeds does `rad self` run exactly once more, and its outcome is final. |
| Controller.MissingHomeRecovers | packages/server/src/controllers/AppController.ts:150-158 | A `mkdir` error mentioning `ENOENT` leads into recovery before any `rad self` has run: the next process is `auth`. |
| Controller.AppController.SetUpProfile | packages/server/src/controllers/AppController.ts:155-162 | Follows the recovery branch: make the home (its error is rethrown), `auth`, then `rad self`. |
| Controller.AppController.HandleGetIdentity | packages/server/src/controllers/AppController.ts:149-166 | Follows the identity trace, `mkdir` failures included. |
| Controller.HitsAppend | packages/server/src/controllers/AppController.ts:77-99 | The results of consecutive files add up in order. |
| Controller.HitsExactly | packages/server/src/controllers/AppController.ts:84-97 | A result is exactly a reached, readable file whose lowercased text contains the lowercased query. It is reported as a file and not as a directory. |
| Controller.SearchIsFilteredWalk | packages/server/src/controllers/AppController.ts:68-104 | The search equals the walk's reached regular files filtered by content. It fails exactly when the walk meets an unreadable directory, and then with that error. |
| Controller.SearchEntriesIsFiltered | packages/server/src/controllers/AppController.ts:77-99 | The same, for the entries of one directory in order. |
| Controller.SearchEntryIsFiltered | packages/server/src/controllers/AppController.ts:80-98 | The same, for one entry. |
| Controller.SearchErrorSticks | packages/server/src/controllers/AppController.ts:75-82 | Once an entry's walk throws, the directory's walk throws the same error. |
| Controller.SkippedIsInvisible | packages/server/src/controllers/AppController.ts:81 | `.git` and `node_modules` contribute nothing, even when unreadable. |
| Controller.Walk | packages/server/src/controllers/AppController.ts:74-100 | The recursive loop appends to `results` exactly the search results of the listing, or fails with the walk's first error. |
| Controller.AppController.HandleFsSearch | packages/server/src/controllers/AppController.ts:68-104 | Returns the search results of the tree, starting from an empty `results`. |
| Toasts.ToastStore.constructor | packages/client/src/store/toast.ts:10 | The store starts with no toasts and no timers. |
| Toasts.ToastStore.Add | packages/client/src/store/toast.ts:14-25 | Exactly one toast is appended, with type `info` and duration 3000 by default. Earlier toasts are unchanged. One removal of its id is scheduled exactly when the duration is positive. |
| Toasts.ToastStore.Remove | packages/client/src/store/toast.ts:26-28 | Every toast with the id is dropped and the others keep their order. |
| Toasts.ToastStore.Expire | packages/client/src/store/toast.ts:20-24 | A fired timer is gone, and its toast is removed. |
| Toasts.Dropped | packages/client/src/store/toast.ts:27 | The filtered list is no longer than the input. |
| Toasts.DroppedMembers | packages/client/src/store/toast.ts:27 | The filtered list holds exactly the toasts whose id differs. |
| Toasts.DroppedAppend | packages/client/src/store/toast.ts:27 | Removal works piece by piece: the toasts kept from a joined list are those kept from its first part followed by those kept from the rest. |
| Toasts.DroppedKeepsOrder | packages/client/src/store/toast.ts:27 | Of two kept toasts, the earlier one in the list is still the earlier one after the removal. |
| Toasts.DroppedAbsent | packages/client/src/store/toast.ts:27 | Removing an id no toast has leaves the list unchanged. |
| Toasts.DroppedIdempotent | packages/client/src/store/toast.ts:27 | Removing twice is removing once. |
| Toasts.AddThenExpire | packages/client/src/store/toast.ts:14-28 | A toast with a fresh id and a positive duration, added and then expired by the timer its `add` scheduled, leaves the toasts and the pending timers exactly as they were. |
| Recents.Without | packages/api/src/workspace.ts:181 | The filter keeps exactly the other folders. |
| Recents.WithoutUnique | packages/api/src/workspace.ts:181 | Filtering keeps a list without repetitions free of them. |
| Recents.ToggledSpec | packages/api/src/workspace.ts:173-183 | Afterwards the folder is expanded exactly as asked (without a flag, exactly when it was not before). Every other folder keeps its state. No folder is ever listed twice. |
| Recents.RememberedSpec | packages/api/src/workspace.ts:209-216 | The workspace is remembered afterwards. The earlier list is kept as a prefix, in order. At most one entry is added, and no repetition appears. |
| Recents.OtherPaths | packages/api/src/workspace.ts:418 | The filter keeps exactly the notes at other paths. |
| Recents.OtherPathsDistinct | packages/api/src/workspace.ts:418 | Filtering keeps paths distinct. |
| Recents.TouchedSpec | packages/api/src/workspace.ts:417-420 | The opened note heads the list, and no other entry has its path. The list has at most ten entries. The others follow in their earlier order (the nine most recent of them). Distinct paths stay distinct. |
| Recents.TouchedHead | packages/api/src/workspace.ts:417-420 | A list already headed by the note, clean and short enough, is left as it is. |
| Recents.TouchedTwice | packages/api/src/workspace.ts:417-420 | Reopening the note at the head of the list changes nothing. |
| Recents.OtherPathsKeepsClean | packages/api/src/workspace.ts:418 | Filtering out a path no entry has changes nothing. |
| Recents.OtherPathsHead | packages/api/src/workspace.ts:418 | Filtering a list headed by an entry with that path drops the head. |
| Paths.LastIndexOfAt | packages/api/src/workspace.ts:281 | `lastIndexOf` is the occurrence with none after it. |
| Paths.SplitJoined | packages/api/src/workspace.ts:281-282 | Splitting `dir/name` at its last `/` gives back `dir` and `name`. |
| Paths.JoinSplit | packages/api/src/workspace.ts:281-282 | A path with a separator is its parent joined with its last segment. |
| Paths.SplitBare | packages/api/src/workspace.ts:281 | A path without a separator has an empty parent and is its own last segment. |
| Paths.MoveTargetSpec | packages/api/src/workspace.ts:303-305 | A move keeps the last segment and lands in the destination folder. It leaves the path unchanged exactly when the source already sits directly in that folder, the one case without a rename. |
| Paths.RenameTargetSpec | packages/api/src/workspace.ts:280-284 | For a new name without `/`, a rename stays in the same folder and takes the new name. It leaves the path unchanged exactly when the new name is the old last segment. |
| Paths.MarkdownNameSpec | packages/api/src/workspace.ts:483 | The note's name always ends with `.md` and starts with the given name. It equals the given name exactly when that already ends with `.md`. Naming twice changes nothing. |
| Paths.CopyNameSpec | packages/api/src/workspace.ts:346-349 | `stem.ext` (extension without a dot) is copied to `stem copy.ext`. A name with no dot is copied to `name copy`. |
| Paths.CopyNameShape | packages/api/src/workspace.ts:346-349 | The copy name gains no separator and is five characters longer. |
| Paths.DuplicateTargetSpec | packages/api/src/workspace.ts:344-351 | A duplicate lands in the source's folder under the copy name, and never coincides with the source. |
| Paths.StripExtension | packages/api/src/workspace.ts:347 | In `stem.ext` with a dot-free stem, replacing the first `.ext` strips exactly the extension. |
| Paths.DuplicateAsWrittenSingleDot | packages/api/src/workspace.ts:344-351 | For a single-dot name, the code as written copies to `parent/stem copy.ext`, agreeing with `DuplicateTarget`. |
| Paths.DuplicateAsWrittenNoDot | packages/api/src/workspace.ts:346-349 | For a path with no dot, the code as written appends ` copy.` and the whole path to the name. |
| Paths.DuplicateLicenseAsWritten | packages/api/src/workspace.ts:346-349 | `/ws/LICENSE` is copied as written to `/ws/LICENSE copy./ws/LICENSE`. |
| Paths.DuplicateLicense | packages/api/src/workspace.ts:344-351 | Under the corrected naming, `/ws/LICENSE` is copied to `/ws/LICENSE copy`. |
| Paths.PageParamRoundTrip | packages/api/src/workspace.ts:384-392 | A note inside the workspace gets its relative path as the page, both as written and as corrected. `init` joining the page back onto the workspace reopens the same note. |
| Paths.PageParamReopens | packages/api/src/workspace.ts:101-110 | Every note inside the workspace is reopened from its corrected page parameter. |
| Paths.DuplicateEarlierExtAsWritten | packages/api/src/workspace.ts:346-349 | The code as written removes the first `.b` of `a.bc.b`, so `/w/a.bc.b` is copied to `/w/ac.b copy.b`. |
| Paths.DuplicateEarlierExt | packages/api/src/workspace.ts:344-351 | Under the corrected naming, `/w/a.bc.b` is copied to `/w/a.bc copy.b`. |
| Paths.PageParamDiffers | packages/api/src/workspace.ts:384-388 | With a workspace, the page as written and the corrected page differ exactly when the note's path starts with the workspace path but not with the workspace path followed by `/`. |
| Paths.PageParamAsWrittenSibling | packages/api/src/workspace.ts:386-387 | For the workspace `/ws` and the note `/ws2/a.md`, the code as written yields the page `/a.md`, which does not lead back. The corrected parameter keeps the whole path. |
| Frontmatter.FramedOffsets | packages/client/src/store/workspace.ts:425 | Offsets inside a framed text line up with offsets in its YAML part. |
| Frontmatter.SplitSound | packages/client/src/store/workspace.ts:425-436 | A match always frames its two groups, and the YAML group is the shortest possible. A text that does not match lacks the opening line or any later closing delimiter. |
| Frontmatter.SplitComplete | packages/client/src/store/workspace.ts:425-436 | Every framed text whose YAML part is the shortest capture matches, with exactly that YAML and body. |
| Frontmatter.ParseSpec | packages/client/src/store/workspace.ts:424-436 | An opened note is either kept whole with no fields (no match, or the YAML fails to load), or is exactly the frame around YAML that loads to its fields and its body. |
| Frontmatter.SaveThenOpen | packages/client/src/store/workspace.ts:475-482 | Saving a note with fields and reopening it gives the same fields and body back. This holds when the dump ends in a newline, the rest is the shortest capture, and loading it gives the same fields. |
| Frontmatter.SaveThenOpenBare | packages/client/src/store/workspace.ts:479-480 | A note without fields is saved as its bare body, and reopens unchanged when the body does not itself begin with a frame. |
| FileTree.Insert | packages/api/src/workspace.ts:261-264 | Insertion adds exactly one node, keeping the multiset of the rest. |
| FileTree.Sort | packages/api/src/workspace.ts:261-264 | The sort is a permutation. |
| FileTree.InsertSorted | packages/api/src/workspace.ts:261-264 | For a total order of names, inserting into a sorted level keeps it sorted. |
| FileTree.SortSpec | packages/api/src/workspace.ts:261-264 | The sort is a permutation and, for a total order of names, leaves every level sorted by the comparator. |
| FileTree.DirectoriesFirst | packages/api/src/workspace.ts:262-263 | In a sorted level every directory comes before every file. |
| FileTree.NodesErrorSticks | packages/api/src/workspace.ts:252-260 | Once the loop has thrown, the later entries do not change the result. |
| FileTree.LoadShape | packages/api/src/workspace.ts:248-265 | A loaded tree has no ignored name anywhere. Because levels deeper than 20 are empty, it has at most 21 levels. For a total order of names it is sorted on every level, so directories come first. |
| FileTree.NodesShape | packages/api/src/workspace.ts:251-260 | The nodes the loop pushes are clean and depth-bounded, and their subtrees are sorted. |
| FileTree.NodesSpec | packages/api/src/workspace.ts:251-260 | The pushed nodes are exactly the listing's entries that are not ignored. A directory carries its own loaded tree, and a file none. |
| FileTree.LoadTops | packages/api/src/workspace.ts:248-265 | The top level of a loaded directory lists exactly the directory's entries that are not ignored. |
| FileTree.AllFilesExactly | packages/api/src/workspace.ts:562-577 | The flattened list holds exactly the non-directory entries of the tree, at any depth. |
| FileTree.OwnExactly | packages/api/src/workspace.ts:564-574 | One node contributes exactly its own entry (when not a directory) and the files below it. |
| FileTree.FindFileSpec | packages/api/src/workspace.ts:495-504 | `findFile` finds something exactly when the tree has a node with the path. What it finds is an entry of the tree with that path. |
| Workspace.Flatten | packages/api/src/workspace.ts:564-574 | The loop pushes the non-directory nodes in pre-order, recursing through all children, as `AllFiles` defines. |
| Workspace.ReloadedValid | packages/api/src/workspace.ts:242-275 | Reloading the tree keeps the store's invariant. |
| Workspace.OpenedValid | packages/api/src/workspace.ts:409-420 | Opening a note keeps the store's invariant. |
| Workspace.SwitchedValid | packages/api/src/workspace.ts:200-216 | Switching workspace keeps the store's invariant. |
| Workspace.MovedSpec | packages/api/src/workspace.ts:310-320 | After a move the destination is expanded. A moved open note now sits in that folder under its old name. Any other open note is left alone. |
| Workspace.MovedValid | packages/api/src/workspace.ts:310-320 | The move's state change keeps the invariant. |
| Workspace.RenamedSpec | packages/api/src/workspace.ts:289-294 | For a new name without `/`, a renamed open note takes the new name, stays in its folder and ends with the new name. Nothing else changes, and the invariant is kept. |
| Workspace.DeletedSpec | packages/api/src/workspace.ts:333-336 | The deleted path is never left open, and its text is cleared. Any other open note stays. The invariant is kept. |
| Workspace.NameMatchesExactly | packages/api/src/workspace.ts:159-161 | The fallback keeps exactly the files whose lowercased name contains the lowercased query. |
| Workspace.WorkspaceStore.constructor | packages/api/src/workspace.ts:32-51 | The store starts from the initial state, which satisfies the invariant. |
| Workspace.WorkspaceStore.Send | packages/api/src/workspace.ts:190-191 | A disk or repository request is logged, and its error is the one the client gives. |
| Workspace.WorkspaceStore.SetTheme | packages/api/src/workspace.ts:123-129 | Only the theme changes. |
| Workspace.WorkspaceStore.GoHome | packages/api/src/workspace.ts:131-138 | Back to the home view with no open note, and no page in the location. |
| Workspace.WorkspaceStore.ToggleSearch | packages/api/src/workspace.ts:140-145 | The panel is set as asked, or flipped. Closing it always empties the results. Nothing else changes. |
| Workspace.WorkspaceStore.ToggleSettings | packages/api/src/workspace.ts:168-171 | The settings panel is set as asked, or flipped. |
| Workspace.WorkspaceStore.ToggleFolder | packages/api/src/workspace.ts:173-183 | The expanded folders become `Toggled`, which `ToggledSpec` characterises. The invariant is kept. |
| Workspace.WorkspaceStore.LoadTree | packages/api/src/workspace.ts:248-265 | The loop and the sort compute exactly the tree `Load` specifies (see `LoadShape`, `NodesSpec`, `LoadTops`). |
| Workspace.WorkspaceStore.LoadFiles | packages/api/src/workspace.ts:242-275 | With a workspace, the loaded tree replaces the files unless loading throws. Nothing else changes, and the invariant is kept. |
| Workspace.WorkspaceStore.GetAllFiles | packages/api/src/workspace.ts:562-577 | Exactly the non-directory entries of the tree, in pre-order. |
| Workspace.WorkspaceStore.SetWorkspacePath | packages/api/src/workspace.ts:199-220 | The workspace becomes current and is remembered once, in order. The location names it with no page. The tree is loaded, and one more sync is started. |
| Workspace.WorkspaceStore.StartSync | packages/api/src/workspace.ts:222-240 | Each call starts one more periodic fetch, whatever runs already. |
| Workspace.WorkspaceStore.SyncTick | packages/api/src/workspace.ts:230-239 | With a workspace, one fetch request is issued. Its failure changes nothing. |
| Workspace.WorkspaceStore.PerformSearch | packages/api/src/workspace.ts:147-166 | No workspace or an empty query gives `[]`. A content search decides the results, and a failed search leaves them as they were. Without a content search, the results are exactly the tree's files whose name matches. |
| Workspace.WorkspaceStore.CreateWorkspace | packages/api/src/workspace.ts:185-197 | Without a root nothing happens. Otherwise the folder is made, then a repository is initialised, then the store switches to it and the location names it with no page. The first failure stops the sequence, is notified, and leaves the state and the location as they were. |
| Workspace.WorkspaceStore.RenameFile | packages/api/src/workspace.ts:277-300 | Without an open note, or with an unchanged path, nothing happens. Otherwise one rename is issued; on success the open note takes the new name and path; on failure it is notified and the state is unchanged. |
| Workspace.WorkspaceStore.MoveFile | packages/api/src/workspace.ts:302-328 | A note already in the folder gives `false` with no rename. Otherwise one rename to `dest/basename` is issued. Success gives `true`, the open note follows only if it was the source, and the folder is expanded. Failure gives `false` and a notice. |
| Workspace.WorkspaceStore.MoveAs | packages/api/src/workspace.ts:305-327 | The same, once the target path is known. |
| Workspace.WorkspaceStore.FollowMove | packages/api/src/workspace.ts:310-321 | After a successful rename the store becomes `Moved` and is reloaded. |
| Workspace.WorkspaceStore.DeleteFile | packages/api/src/workspace.ts:330-342 | One delete is issued. The open note is closed and its text cleared only when it was the deleted path. A failure is notified and changes nothing. |
| Workspace.WorkspaceStore.SendAndReload | packages/api/src/workspace.ts:351-356 | A request whose success only reloads the tree. On failure its notice is shown and the state is unchanged. |
| Workspace.WorkspaceStore.DuplicateFile | packages/api/src/workspace.ts:344-357 | One copy is issued to the duplicate's path (see `DuplicateTargetSpec`). Success reloads. Failure is notified. |
| Workspace.WorkspaceStore.RenameFromContextMenu | packages/api/src/workspace.ts:359-378 | One rename within the folder is issued. The open note follows only when it was the renamed one. A failure is notified and changes nothing. |
| Workspace.WorkspaceStore.OpenFile | packages/api/src/workspace.ts:380-425 | A directory changes nothing. Otherwise the page becomes the note's relative path (when there is a workspace). A readable note becomes the open note in the editor, with its frontmatter split off and the note heading the recent list. An unreadable one is notified. |
| Workspace.WorkspaceStore.CheckGitStatus | packages/api/src/workspace.ts:471-476 | With a workspace, the note is marked published exactly when the repository is clean. A failing status query throws and changes nothing. |
| Workspace.WorkspaceStore.SaveToDisk | packages/api/src/workspace.ts:440-454 | Without an open note nothing happens. Otherwise exactly the serialised note is written to its path. Only a successful write clears the dirty flag and refreshes the published flag; when there is no workspace or the status query fails, the published flag stays as it was. A failure is notified and changes nothing. |
| Workspace.WorkspaceStore.UpdateContent | packages/api/src/workspace.ts:427-430 | The body takes the editor's text and the note is saved with it. |
| Workspace.WorkspaceStore.UpdateProperty | packages/api/src/workspace.ts:432-438 | One field is set and the note is saved with it. |
| Workspace.WorkspaceStore.Publish | packages/api/src/workspace.ts:456-469 | With a workspace, one publish request is issued and the status refreshed. `isPublishing` is false afterwards, on success and on failure. A failure is notified and leaves the published flag as it was. |
| Workspace.WorkspaceStore.PublishAndCheck | packages/api/src/workspace.ts:459-464 | The publish request, then the status refresh. A failure of either is notified. |
| Workspace.WorkspaceStore.CreateFile | packages/api/src/workspace.ts:478-529 | Without a workspace nothing happens. Otherwise an empty note is written to `(parent or workspace)/name[.md]`. On success the parent is expanded and an entry at that path is opened. Failure is notified. |
| Workspace.WorkspaceStore.ShowCreated | packages/api/src/workspace.ts:488-524 | The entry opened is the one at the note's path in the reloaded tree, or one made up from the name. The page becomes the note's relative path. A readable note is opened on the reloaded state with its parent expanded; an unreadable one is notified and leaves that state. |
| Workspace.WorkspaceStore.FindCreated | packages/api/src/workspace.ts:488-522 | The state is the reloaded one with the parent expanded. The entry picked is the tree's entry at the note's path, or one made up from the name and path. The location and the requests are unchanged. |
| Workspace.WorkspaceStore.CreateFolder | packages/api/src/workspace.ts:531-547 | With a workspace, one folder is made below the parent (or workspace). Success reloads and expands the parent. Failure is notified. |
| Workspace.WorkspaceStore.LoadIdentity | packages/api/src/workspace.ts:549-556 | The identity the client reports, if any, is stored. |
| Workspace.WorkspaceStore.Logout | packages/api/src/workspace.ts:558-560 | The identity is forgotten. |
| Workspace.WorkspaceStore.Init | packages/api/src/workspace.ts:65-121 | Without the configuration capability, the first remembered workspace is reopened. A failing configuration read is notified. Otherwise the root is set, and the workspace is chosen in this order: the location's, else a new `root/my-workspace`, else the first remembered one. A page link then opens its note. |
| Workspace.WorkspaceStore.OpenStartWorkspace | packages/api/src/workspace.ts:84-97 | The workspace `init` switches to: the location's, else a new `my-workspace` folder that becomes the only remembered one, else the first remembered one. The new state is that switch reloaded, the location names it with no page, and one more sync runs. With none of these nothing changes. |
| Workspace.WorkspaceStore.OpenPageLink | packages/api/src/workspace.ts:101-111 | The location keeps the page. A readable page link opens the note at `workspace/page`, named by the page's last segment. An unreadable one is notified and changes no state. |

## Left out

- Process spawning, stream events and timers are oracle replies and `Sleep` events. No real time passes.
- RadicleGit.ProcessHost.SpawnDetached: the detached `rad node start` is assumed to launch. The source attaches no `error` listener to it, so a failed launch would be an uncaught error event; that is not modelled.
- `setInterval` in `startSync` is a counter of running intervals; one run is `SyncTick`.
- Toast timers are pending `Timer` values.
- The one-second wait in `createFile` is dropped.
- Workspace.WorkspaceStore.FindCreated: the second reload reads the same directory oracle as the first, so a note that only appears after the wait is never found and the made-up entry is opened.
- The filesystem is a static oracle. Content search reads an abstract tree of `Entry` values, and the store reads a `readdir`/`read` oracle that does not change when requests are issued.
- The thin file handlers of `AppController` are not modelled. They pass straight through to the filesystem or decode base64: `handleFsWrite`, `handleFsRead`, `handleFsRename`, `handleFsDelete`, `handleFsCopy`, `handleFsMkdir`, `handleFsWriteImage`.
- `packages/server/src/config/env.ts` is not part of this model. Its `RAD_HOME` derivation is the controller's `ProfileHome`.
- YAML `load`/`dump` are parameters of type `Fields`. A YAML document that loads to something other than a map (a scalar or `null`) is not modelled.
- `localeCompare` is the `collate` parameter.
- `toLowerCase` is ASCII-only lowercasing.
- `path.join` is `dir + "/" + name`, without normalisation.
- `Math.random` toast ids are a parameter; their uniqueness is not guaranteed and not assumed.
- `localStorage`, `applyTheme`/`matchMedia`, console logging and UI components are not modelled.
- The browser location is the `location` field. `pushState` and `replaceState` are not told apart.
- The store is modelled with a window always present. Run without one, `init` reads no URL parameters and `openFile`/`goHome` leave the location alone; that mode is not modelled.
- Workspace.WorkspaceStore.DuplicateFile: issues the copy to the corrected `DuplicateTarget`, not the target `workspace.ts:346-349` computes. The two differ whenever the path's last `.` is not in the file name (a name without `.`, or a `.` only in a folder), and whenever `.ext` first occurs in the name before its last `.` (`a.bc.b`, or a name ending in `.`). See Findings, `DuplicateAsWrittenNoDot` and `DuplicateEarlierExtAsWritten`; they agree on `stem.ext` with a dot-free stem (`DuplicateAsWrittenSingleDot`).
- Workspace.WorkspaceStore.OpenFile: sets the page to the corrected `PageParam`, not the value `workspace.ts:386-387` computes. The two differ exactly when the note's path starts with the workspace path but not with the workspace path followed by `/` (`PageParamDiffers`): a sibling folder whose name extends the workspace's, the workspace itself, or a workspace path ending in `/`. See Findings, `PageParamAsWrittenSibling`.
- Asynchronous interleaving is not modelled. Actions run one at a time, so the `currentPath` race check in `loadFiles` never discards a result.
- The client store's extra behaviour is not modelled: it notifies through the toast queue and persists the workspace list and theme itself. Apart from the rename and move updates below, its actions follow the api store's, which is what the class models.
- Workspace.WorkspaceStore.RenameFile, MoveFile and RenameFromContextMenu model the api store, which replaces the open note with an updated copy and leaves `recentFiles` alone. The client store instead sets `name` and `path` on the `currentFile` object in place. `openFile` put that same object at the head of `recentFiles`, so in the client the recent entry is renamed or moved too. The model does not capture this aliasing. `Valid`'s distinct recent paths (kept by `RenamedSpec`, `MovedValid` and the `Valid` clauses of these three methods) are proved for the api store only. In the client, renaming the open note `/w/a.md` to `b.md` while `/w/b.md` is also a recent note leaves two recent entries at `/w/b.md`.
- Workspace.WorkspaceStore.UpdateContent: states the write request and the new body only. The state after the save is what `SaveToDisk` states.
- Workspace.WorkspaceStore.UpdateProperty: states the write request and the new fields only, for the same reason. Field values are strings, so clearing a property with `null` (as the editor does for `cover` and `icon`) is not modelled.
- Workspace.WorkspaceStore.Init: states the root, the chosen workspace and the opened page link, not the whole resulting state.
- Workspace.WorkspaceStore.CreateFile: states the opened note only when the entry found is a readable regular file.
- FileTree.SortSpec: sortedness is proved only for a total order of names. Stability and the exact order `localeCompare` gives are not stated.

## Findings

| source | as written | input that shows it | evidently intended | confidence | as-written member | corrected member |
|---|---|---|---|---|---|---|
| packages/api/src/workspace.ts:346-349 | The extension is taken after the last `.` of the whole path, not of the file name. | `/ws/LICENSE` is copied to `/ws/LICENSE copy./ws/LICENSE` | `/ws/LICENSE copy`: ` copy` before the name's last `.`, or at its end | not executed | Paths.DuplicateLicenseAsWritten | Paths.DuplicateLicense |
| packages/api/src/workspace.ts:347 | The stem removes the FIRST occurrence of `.ext` from the name, not the final one. | `/w/a.bc.b` is copied to `/w/ac.b copy.b` | `/w/a.bc copy.b`: ` copy` before the name's last `.` | not executed | Paths.DuplicateEarlierExtAsWritten | Paths.DuplicateEarlierExt |
| packages/api/src/workspace.ts:386-387 | The page strips the workspace prefix whenever the path starts with it, even without a `/` boundary. | workspace `/ws`, note `/ws2/a.md` gives page `/a.md` | strip only a `/ws/` prefix, so the page reopens the same note | not executed | Paths.PageParamAsWrittenSibling | Paths.PageParamReopens |
