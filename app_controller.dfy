/** The server's application controller: the profile home it derives, the
    recovery policies it wraps around the repository service, and the
    content search over a directory tree.

    The filesystem the search reads is given as a tree of `Entry` values: a
    directory's listing, or the error reading it throws, and a file's text, or
    nothing when reading it fails. */
module Controller {
  import opened Base
  import opened Text
  import opened RadicleGit
  import opened Files

  /** The directory under the user-data path that holds the Radicle profile. */
  const ProfileDir: string := "radicle-env"
  const GitBinaryVar: string := "GIT_BINARY_PATH"
  const RadBinaryVar: string := "RAD_BINARY_PATH"

  const PublishMessage: string := "Updated via Sovereign UI"
  /** The error text that makes publish and fetch start the node and retry. */
  const NodeNotRunning: string := "node must be running"
  /** The error texts that make the identity query create a profile and retry. */
  const ProfileMissing: string := "Radicle profile not found"
  const NoSuchFile: string := "ENOENT"
  const DefaultAlias: string := "rad-cms-user"

  const GitInitStep: Step := Step("git", ["init"], map[])
  const SelfStep: Step := Step("rad", ["self"], map[])

  /** `path.join(userDataPath, 'radicle-env')`. */
  function ProfileHome(userDataPath: string): string {
    JoinPath(userDataPath, ProfileDir)
  }

  /** `process.env[key]`: the host's value, or none when the host does not define it. */
  function Lookup(env: map<string, string>, key: string): Option<string> {
    if key in env then Some(env[key]) else None
  }

  // ---------------------------------------------------------------------------
  // Recovery around publish and fetch

  /** The failure that publish and fetch recover from. */
  predicate NeedsNode<T>(r: Result<T>) {
    r.Err? && Contains(r.message, NodeNotRunning)
  }

  /** The two service calls the controller retries once the node is up. */
  datatype Retried = Publishing | Fetching

  /** One attempt of the retried call: `publish(cwd, 'Updated via Sovereign UI')`
      or `fetch(cwd)`. Each reply it consumes is one process it ran, within the
      call's budget, and it launches nothing detached. */
  function Attempt(cfg: Config, replies: nat -> Outcome, n: nat, cwd: string, op: Retried): (t: Trace<()>)
    ensures RunCount(t.events) == t.used <= AttemptBudget(op) && DetachCount(t.events) == 0
  {
    match op
    case Publishing =>
      RunStepsCounts(cfg, replies, n, cwd, PublishSteps(PublishMessage));
      PublishTrace(cfg, replies, n, cwd, PublishMessage)
    case Fetching =>
      RunStepsCounts(cfg, replies, n, cwd, [FetchStep]);
      FetchTrace(cfg, replies, n, cwd)
  }

  /** The position of the first reply after the first attempt. */
  function AfterFirst(cfg: Config, replies: nat -> Outcome, n: nat, cwd: string, op: Retried): nat {
    n + Attempt(cfg, replies, n, cwd, op).used
  }

  /** `nodeStart(radHome)` on the replies that follow the first attempt. */
  function StartAfter(cfg: Config, replies: nat -> Outcome, n: nat, cwd: string, op: Retried): (t: Trace<()>)
    ensures RunCount(t.events) == t.used <= PollBudget && DetachCount(t.events) == 1
  {
    NodeStartCounts(cfg, replies, AfterFirst(cfg, replies, n, cwd, op), cfg.radHome);
    NodeStartTrace(cfg, replies, AfterFirst(cfg, replies, n, cwd, op), cfg.radHome)
  }

  /** The position of the first reply after the node start. */
  function AfterStart(cfg: Config, replies: nat -> Outcome, n: nat, cwd: string, op: Retried): nat {
    AfterFirst(cfg, replies, n, cwd, op) + StartAfter(cfg, replies, n, cwd, op).used
  }

  /** The second attempt, on the replies that follow the node start. */
  function RetryAfter(cfg: Config, replies: nat -> Outcome, n: nat, cwd: string, op: Retried): Trace<()> {
    Attempt(cfg, replies, AfterStart(cfg, replies, n, cwd, op), cwd, op)
  }

  /** The node start follows the first attempt's replies. */
  lemma StartAfterAt(cfg: Config, replies: nat -> Outcome, n: nat, cwd: string, op: Retried, m: nat)
    requires m == AfterFirst(cfg, replies, n, cwd, op)
    ensures StartAfter(cfg, replies, n, cwd, op) == NodeStartTrace(cfg, replies, m, cfg.radHome)
  {
  }

  /** The second attempt follows the node start's replies. */
  lemma RetryAfterAt(cfg: Config, replies: nat -> Outcome, n: nat, cwd: string, op: Retried, m: nat)
    requires m == AfterStart(cfg, replies, n, cwd, op)
    ensures RetryAfter(cfg, replies, n, cwd, op) == Attempt(cfg, replies, m, cwd, op)
  {
  }

  /** Try `first`; when it fails because the node is down, start the node and
      run `retry`, whose outcome is final; any other outcome of `first` is final.
      `nodeStart` never throws (see `NodeStartBounded`), so its result plays no part. */
  function RecoverNode(first: Trace<()>, start: Trace<()>, retry: Trace<()>): Trace<()> {
    if NeedsNode(first.result) then
      Trace(retry.result, first.events + start.events + retry.events, first.used + start.used + retry.used)
    else first
  }

  /** `handleGitPublish(cwd)` and `handleGitFetch(cwd)`. */
  function Recovering(cfg: Config, replies: nat -> Outcome, n: nat, cwd: string, op: Retried): Trace<()> {
    RecoverNode(Attempt(cfg, replies, n, cwd, op), StartAfter(cfg, replies, n, cwd, op), RetryAfter(cfg, replies, n, cwd, op))
  }

  /** The processes one attempt may run: three for publish, one for fetch. */
  function AttemptBudget(op: Retried): nat {
    match op
    case Publishing => 3
    case Fetching => 1
  }

  /** The node is started exactly when the first attempt failed for want of a
      node, and then exactly once; each reply consumed is one process run, and
      no more are consumed than the three parts together may use. */
  lemma RecoverNodeFacts(first: Trace<()>, start: Trace<()>, retry: Trace<()>, bound: nat)
    requires RunCount(first.events) == first.used && DetachCount(first.events) == 0
    requires RunCount(start.events) == start.used && DetachCount(start.events) == 1
    requires RunCount(retry.events) == retry.used && DetachCount(retry.events) == 0
    requires first.used + start.used + retry.used <= bound
    ensures var t := RecoverNode(first, start, retry);
      && RunCount(t.events) == t.used <= bound
      && (!NeedsNode(first.result) ==> t == first && DetachCount(t.events) == 0)
      && (NeedsNode(first.result) ==>
            && DetachCount(t.events) == 1
            && t.events == first.events + start.events + retry.events
            && t.result == retry.result)
  {
    if NeedsNode(first.result) {
      RunCountAppend(first.events, start.events);
      RunCountAppend(first.events + start.events, retry.events);
      DetachCountAppend(first.events, start.events);
      DetachCountAppend(first.events + start.events, retry.events);
    }
  }

  /** `handleGitPublish` and `handleGitFetch`: an error that mentions `node
      must be running` starts the node exactly once (one detached launch) and
      retries the call exactly once, whose outcome, error included, is the
      handler's; any other outcome is returned or rethrown unchanged and the
      node is never started. At most 3 + 20 + 3 processes run for publish and
      1 + 20 + 1 for fetch. */
  lemma RecoveryBounded(cfg: Config, replies: nat -> Outcome, n: nat, cwd: string, op: Retried)
    ensures var first := Attempt(cfg, replies, n, cwd, op);
      var start := StartAfter(cfg, replies, n, cwd, op);
      var retry := RetryAfter(cfg, replies, n, cwd, op);
      var t := Recovering(cfg, replies, n, cwd, op);
      && RunCount(t.events) == t.used <= 2 * AttemptBudget(op) + PollBudget
      && (!NeedsNode(first.result) ==> t == first && DetachCount(t.events) == 0)
      && (NeedsNode(first.result) ==>
            && DetachCount(t.events) == 1
            && t.events == first.events + start.events + retry.events
            && t.result == retry.result)
  {
    RecoverNodeFacts(Attempt(cfg, replies, n, cwd, op), StartAfter(cfg, replies, n, cwd, op), RetryAfter(cfg, replies, n, cwd, op), 2 * AttemptBudget(op) + PollBudget);
  }

  // ---------------------------------------------------------------------------
  // Repository creation and the identity query

  /** `handleGitInit(cwd)`: `git init`, then, only if it succeeded, `rad init`;
      every failure is swallowed. */
  function GitInitTrace(cfg: Config, replies: nat -> Outcome, n: nat, cwd: string): Trace<()> {
    var t := RunSteps(cfg, replies, n, cwd, [GitInitStep, InitStep]);
    Trace(Ok(()), t.events, t.used)
  }

  /** `handleGitInit` never throws; it runs `git init`, and `rad init` after it
      exactly when `git init` succeeded. */
  lemma GitInitNeverThrows(cfg: Config, replies: nat -> Outcome, n: nat, cwd: string)
    ensures var t := GitInitTrace(cfg, replies, n, cwd);
      var gitInit := Run(StepInvocation(cfg, cwd, GitInitStep));
      && t.result == Ok(())
      && t.events == (if Succeeds(replies(n)) then [gitInit, Run(StepInvocation(cfg, cwd, InitStep))] else [gitInit])
      && t.used == |t.events|
  {
    var steps := [GitInitStep, InitStep];
    assert steps[1..] == [InitStep];
    SingleStep(cfg, replies, n + 1, cwd, InitStep);
  }

  /** The failure that makes the identity query create a profile. */
  predicate ProfileAbsent(r: Result<string>) {
    r.Err? && (Contains(r.message, ProfileMissing) || Contains(r.message, NoSuchFile))
  }

  /** The recovery branch of `handleGetIdentity()`: make the profile home
      again (directory request `d`; its error is rethrown), create an identity
      with `rad auth --alias rad-cms-user` (one process) and, once that
      succeeded, run `rad self` once more. */
  function ProfileSetupTrace(cfg: Config, replies: nat -> Outcome, dirs: nat -> Option<string>, n: nat, d: nat): Trace<string> {
    var home := cfg.radHome;
    var auth := AuthTrace(cfg, replies, n, home, DefaultAlias);
    if dirs(d).Some? then Trace(Err(dirs(d).value), [MakeDir(home)], 0)
    else if auth.result.Err? then Trace(Err(auth.result.message), [MakeDir(home)] + auth.events, 1)
    else Trace(Resolve(replies(n + 1)), [MakeDir(home)] + auth.events + [Run(StepInvocation(cfg, home, SelfStep))], 2)
  }

  /** The first failure of `handleGetIdentity()`'s `try` block, or its answer:
      the error of directory request `d` when it is refused, otherwise what
      `rad self` (process `n`) yields. */
  function FirstAnswer(replies: nat -> Outcome, dirs: nat -> Option<string>, n: nat, d: nat): Result<string> {
    if dirs(d).Some? then Err(dirs(d).value) else Resolve(replies(n))
  }

  /** The events of that `try` block: the `mkdir`, then `rad self` unless the `mkdir` threw. */
  function FirstEvents(cfg: Config, dirs: nat -> Option<string>, d: nat): seq<Event> {
    if dirs(d).Some? then [MakeDir(cfg.radHome)] else [MakeDir(cfg.radHome), Run(StepInvocation(cfg, cfg.radHome, SelfStep))]
  }

  /** The replies that `try` block consumes: none when the `mkdir` threw, else one. */
  function FirstUsed(dirs: nat -> Option<string>, d: nat): nat {
    if dirs(d).Some? then 0 else 1
  }

  /** `handleGetIdentity()`: make the profile home, run `rad self` there, and
      set the profile up when either fails for want of one. */
  function IdentityTrace(cfg: Config, replies: nat -> Outcome, dirs: nat -> Option<string>, n: nat, d: nat): Trace<string> {
    var first := FirstAnswer(replies, dirs, n, d);
    var tried := FirstEvents(cfg, dirs, d);
    var used := FirstUsed(dirs, d);
    if !ProfileAbsent(first) then Trace(first, tried, used)
    else
      var setup := ProfileSetupTrace(cfg, replies, dirs, n + used, d + 1);
      Trace(setup.result, tried + setup.events, used + setup.used)
  }

  /** The identity query. The `try` block makes the profile home and, unless
      that throws, runs `rad self`; its first error, or its answer, is final
      when it is not a missing-profile or `ENOENT` failure, and then nothing
      else runs. Otherwise the home is made again, and an error there is
      rethrown before any process runs; then `auth` runs exactly once, with
      alias `rad-cms-user` in the profile home, its error is rethrown, and
      only after it succeeded does `rad self` run exactly once more, whose
      outcome is final. */
  lemma IdentityRecovery(cfg: Config, replies: nat -> Outcome, dirs: nat -> Option<string>, n: nat, d: nat)
    ensures var home := cfg.radHome;
      var self := Run(StepInvocation(cfg, home, SelfStep));
      var auth := Run(StepInvocation(cfg, home, AuthStep(DefaultAlias)));
      var first := if dirs(d).Some? then Err(dirs(d).value) else Resolve(replies(n));
      var tried := if dirs(d).Some? then [MakeDir(home)] else [MakeDir(home), self];
      var m := if dirs(d).Some? then n else n + 1;
      var t := IdentityTrace(cfg, replies, dirs, n, d);
      && (!ProfileAbsent(first) ==> t == Trace(first, tried, m - n))
      && (ProfileAbsent(first) && dirs(d + 1).Some? ==>
            t == Trace(Err(dirs(d + 1).value), tried + [MakeDir(home)], m - n))
      && (ProfileAbsent(first) && dirs(d + 1).None? && !Succeeds(replies(m)) ==>
            t == Trace(Err(FailureMessage(replies(m))), tried + [MakeDir(home), auth], m - n + 1))
      && (ProfileAbsent(first) && dirs(d + 1).None? && Succeeds(replies(m)) ==>
            t == Trace(Resolve(replies(m + 1)), tried + [MakeDir(home), auth, self], m - n + 2))
  {
    var home := cfg.radHome;
    var self := Run(StepInvocation(cfg, home, SelfStep));
    var auth := Run(StepInvocation(cfg, home, AuthStep(DefaultAlias)));
    var tried := FirstEvents(cfg, dirs, d);
    var m := n + FirstUsed(dirs, d);
    SingleStep(cfg, replies, m, home, AuthStep(DefaultAlias));
    assert tried + ([MakeDir(home)] + [auth]) == tried + [MakeDir(home), auth];
    assert tried + ([MakeDir(home)] + [auth] + [self]) == tried + [MakeDir(home), auth, self];
  }

  /** A `mkdir` error that mentions `ENOENT` sends the query into recovery
      before any `rad self` has run: the next process is `auth`. */
  lemma MissingHomeRecovers(cfg: Config, replies: nat -> Outcome, dirs: nat -> Option<string>, n: nat, d: nat)
    requires dirs(d).Some? && Contains(dirs(d).value, NoSuchFile) && dirs(d + 1).None?
    ensures var t := IdentityTrace(cfg, replies, dirs, n, d);
      && |t.events| >= 3
      && t.events[..3] == [MakeDir(cfg.radHome), MakeDir(cfg.radHome), Run(StepInvocation(cfg, cfg.radHome, AuthStep(DefaultAlias)))]
  {
    IdentityRecovery(cfg, replies, dirs, n, d);
  }

  /** Every process the service runs for the controller sees the controller's
      profile home as `RAD_HOME`, whatever the host environment says. */
  lemma ProfileHomePinned(cfg: Config, cwd: string, s: Step)
    requires ProfileVar !in s.extra
    ensures var env := StepInvocation(cfg, cwd, s).env;
      ProfileVar in env && env[ProfileVar] == cfg.radHome
  {
    ChildEnvContents(cfg.radHome, cfg.hostEnv, s.extra);
  }

  // ---------------------------------------------------------------------------
  // Content search

  /** A directory entry as `readdir` reports it: a regular file (its text, or
      none when reading it fails), a directory (its listing), or anything else. */
  datatype Entry = RegularFile(name: string, content: Option<string>) | Directory(name: string, listing: Listing) | Special(name: string)

  /** A directory's entries, or the error reading it throws. */
  datatype Listing = Listing(entries: seq<Entry>) | Unreadable(error: string)

  /** The directories the search never enters. */
  predicate Skipped(name: string) {
    name == ".git" || name == "node_modules"
  }

  /** A file matches when it can be read and its text, lowercased, contains the lowercased query. */
  predicate Matches(content: Option<string>, query: string) {
    content.Some? && Contains(Lower(content.value), Lower(query))
  }

  /** The results of walking a directory at `dir`, in visiting order, or the first listing error. */
  function SearchListing(dir: string, l: Listing, query: string): Result<seq<FileEntry>>
    decreases l
  {
    match l
    case Unreadable(m) => Err(m)
    case Listing(es) => SearchEntries(dir, es, query)
  }

  /** The results of visiting the entries `es` of the directory `dir`, in order. */
  function SearchEntries(dir: string, es: seq<Entry>, query: string): Result<seq<FileEntry>>
    decreases es
  {
    if es == [] then Ok([])
    else
      var before := SearchEntries(dir, es[..|es| - 1], query);
      if before.Err? then before
      else
        var here := SearchEntry(dir, es[|es| - 1], query);
        if here.Err? then here else Ok(before.value + here.value)
  }

  /** The results one entry contributes: a matching file itself, a directory
      its walk (unless skipped), anything else nothing. */
  function SearchEntry(dir: string, e: Entry, query: string): Result<seq<FileEntry>>
    decreases e
  {
    var p := JoinPath(dir, e.name);
    match e
    case Directory(name, l) => if Skipped(name) then Ok([]) else SearchListing(p, l, query)
    case RegularFile(name, content) => if Matches(content, query) then Ok([FileEntry(name, p, false, true)]) else Ok([])
    case Special(_) => Ok([])
  }

  /** A regular file the walk reaches, with its path. */
  datatype Seen = Seen(name: string, path: string, content: Option<string>)

  /** Every regular file the walk reaches, in visiting order, or the first listing error. */
  function FilesListing(dir: string, l: Listing): Result<seq<Seen>>
    decreases l
  {
    match l
    case Unreadable(m) => Err(m)
    case Listing(es) => FilesEntries(dir, es)
  }

  function FilesEntries(dir: string, es: seq<Entry>): Result<seq<Seen>>
    decreases es
  {
    if es == [] then Ok([])
    else
      var before := FilesEntries(dir, es[..|es| - 1]);
      if before.Err? then before
      else
        var here := FilesEntry(dir, es[|es| - 1]);
        if here.Err? then here else Ok(before.value + here.value)
  }

  function FilesEntry(dir: string, e: Entry): Result<seq<Seen>>
    decreases e
  {
    var p := JoinPath(dir, e.name);
    match e
    case Directory(name, l) => if Skipped(name) then Ok([]) else FilesListing(p, l)
    case RegularFile(name, content) => Ok([Seen(name, p, content)])
    case Special(_) => Ok([])
  }

  /** The search results for a list of reached files: the matching ones, in order. */
  function Hits(files: seq<Seen>, query: string): seq<FileEntry> {
    if files == [] then []
    else
      var f := files[|files| - 1];
      Hits(files[..|files| - 1], query) + if Matches(f.content, query) then [FileEntry(f.name, f.path, false, true)] else []
  }

  lemma {:induction false} HitsAppend(a: seq<Seen>, b: seq<Seen>, query: string)
    ensures Hits(a + b, query) == Hits(a, query) + Hits(b, query)
    decreases |b|
  {
    if b == [] {
      assert a + b == a;
    } else {
      var init := b[..|b| - 1];
      assert (a + b)[..|a + b| - 1] == a + init;
      HitsAppend(a, init, query);
    }
  }

  /** A result is exactly a reached, readable file whose text matches, reported as a file and not a directory. */
  lemma {:induction false} HitsExactly(files: seq<Seen>, query: string, h: FileEntry)
    ensures h in Hits(files, query)
        <==> exists f :: f in files && Matches(f.content, query) && h == FileEntry(f.name, f.path, false, true)
    decreases |files|
  {
    if files != [] {
      var init := files[..|files| - 1];
      HitsExactly(init, query, h);
      assert files == init + [files[|files| - 1]];
    }
  }

  /** The search is the walk's reached files filtered by content: it fails
      exactly when the walk meets an unreadable directory, with that error. */
  lemma {:induction false} SearchIsFilteredWalk(dir: string, l: Listing, query: string)
    ensures var files := FilesListing(dir, l);
      SearchListing(dir, l, query) == if files.Err? then Err(files.message) else Ok(Hits(files.value, query))
    decreases l
  {
    match l
    case Unreadable(m) =>
    case Listing(es) => SearchEntriesIsFiltered(dir, es, query);
  }

  lemma {:induction false} SearchEntriesIsFiltered(dir: string, es: seq<Entry>, query: string)
    ensures var files := FilesEntries(dir, es);
      SearchEntries(dir, es, query) == if files.Err? then Err(files.message) else Ok(Hits(files.value, query))
    decreases es
  {
    if es != [] {
      var init := es[..|es| - 1];
      var e := es[|es| - 1];
      SearchEntriesIsFiltered(dir, init, query);
      SearchEntryIsFiltered(dir, e, query);
      var before := FilesEntries(dir, init);
      var here := FilesEntry(dir, e);
      if before.Ok? && here.Ok? {
        HitsAppend(before.value, here.value, query);
      }
    }
  }

  lemma {:induction false} SearchEntryIsFiltered(dir: string, e: Entry, query: string)
    ensures var files := FilesEntry(dir, e);
      SearchEntry(dir, e, query) == if files.Err? then Err(files.message) else Ok(Hits(files.value, query))
    decreases e
  {
    match e
    case Directory(name, l) =>
      if !Skipped(name) {
        SearchIsFilteredWalk(JoinPath(dir, name), l, query);
      }
    case RegularFile(name, content) =>
      var s := [Seen(name, JoinPath(dir, name), content)];
      assert s[..|s| - 1] == [];
      var hit := if Matches(content, query) then [FileEntry(name, JoinPath(dir, name), false, true)] else [];
      assert Hits(s, query) == [] + hit;
      assert [] + hit == hit;
      assert FilesEntry(dir, e) == Ok(s);
      assert SearchEntry(dir, e, query) == Ok(hit);
    case Special(_) =>
  }

  /** Once a prefix of the entries fails, the whole listing fails with the same error. */
  lemma {:induction false} SearchErrorSticks(dir: string, es: seq<Entry>, k: nat, query: string)
    requires k <= |es|
    requires SearchEntries(dir, es[..k], query).Err?
    ensures SearchEntries(dir, es, query) == SearchEntries(dir, es[..k], query)
    decreases |es| - k
  {
    if k < |es| {
      assert es[..k + 1][..k] == es[..k];
      SearchErrorSticks(dir, es, k + 1, query);
    } else {
      assert es[..k] == es;
    }
  }

  /** A skipped directory contributes nothing, whatever it holds and even when it cannot be read. */
  lemma SkippedIsInvisible(dir: string, name: string, l: Listing, query: string)
    requires Skipped(name)
    ensures SearchEntry(dir, Directory(name, l), query) == Ok([])
    ensures FilesEntry(dir, Directory(name, l)) == Ok([])
  {
  }

  /** The recursive `walk` of `handleFsSearch`: lists `currentPath`, and for
      each entry in order descends into a directory that is not skipped or
      reads a regular file and appends it when it matches. */
  method Walk(currentPath: string, listing: Listing, query: string, results: seq<FileEntry>) returns (r: Result<seq<FileEntry>>)
    ensures var found := SearchListing(currentPath, listing, query);
      r == if found.Err? then Err(found.message) else Ok(results + found.value)
    decreases listing
  {
    if listing.Unreadable? {
      return Err(listing.error);
    }
    var entries := listing.entries;
    var acc := results;
    for i := 0 to |entries|
      invariant SearchEntries(currentPath, entries[..i], query).Ok?
      invariant acc == results + SearchEntries(currentPath, entries[..i], query).value
    {
      var entry := entries[i];
      var entryPath := JoinPath(currentPath, entry.name);
      ghost var before := SearchEntries(currentPath, entries[..i], query).value;
      ghost var here := SearchEntry(currentPath, entry, query);
      assert entries[..i + 1][..i] == entries[..i];
      assert SearchEntries(currentPath, entries[..i + 1], query) == if here.Err? then here else Ok(before + here.value);
      match entry {
        case Directory(name, sub) =>
          if !Skipped(name) {
            var walked := Walk(entryPath, sub, query, acc);
            if walked.Err? {
              SearchErrorSticks(currentPath, entries, i + 1, query);
              return Err(walked.message);
            }
            acc := walked.value;
          }
        case RegularFile(name, content) =>
          if content.Some? && Contains(Lower(content.value), Lower(query)) {
            acc := acc + [FileEntry(name, entryPath, false, true)];
          }
        case Special(_) =>
      }
      Regroup(results, before, here.value);
    }
    assert entries[..|entries|] == entries;
    r := Ok(acc);
  }

  // ---------------------------------------------------------------------------
  // The controller

  class AppController {
    const userDataPath: string
    const radHome: string
    const radGit: Service

    /** Derives the profile home from the user-data path and creates the
        service over it, with binary paths from `GIT_BINARY_PATH` and
        `RAD_BINARY_PATH` when the host defines them. */
    constructor (userDataPath: string, hostEnv: map<string, string>, host: ProcessHost)
      ensures this.userDataPath == userDataPath && radHome == ProfileHome(userDataPath)
      ensures radGit.radHome == radHome && radGit.hostEnv == hostEnv && radGit.host == host
      ensures radGit.gitBin == Lookup(hostEnv, GitBinaryVar).GetOr("git")
      ensures radGit.radBin == Lookup(hostEnv, RadBinaryVar).GetOr("rad")
    {
      this.userDataPath := userDataPath;
      var home := ProfileHome(userDataPath);
      this.radHome := home;
      this.radGit := new Service(home, Lookup(hostEnv, GitBinaryVar), Lookup(hostEnv, RadBinaryVar), hostEnv, host);
    }

    /** `handleNodeStart`: the blocking `rad node start` in the profile home. */
    method HandleNodeStart() returns (r: Result<string>)
      requires radGit.radHome == radHome
      modifies radGit.host
      ensures r == Resolve(radGit.host.replies(old(radGit.host.next)))
      ensures radGit.host.next == old(radGit.host.next) + 1
      ensures radGit.host.log == old(radGit.host.log) + [Run(StepInvocation(radGit.Cfg(), radHome, Step("rad", ["node", "start"], map[])))]
    {
      r := radGit.Exec("rad", ["node", "start"], radHome, map[]);
    }

    method HandleGitInit(cwd: string) returns (r: Result<()>)
      modifies radGit.host
      ensures Follows(radGit.host, old(radGit.host.next), old(radGit.host.log), GitInitTrace(radGit.Cfg(), radGit.host.replies, old(radGit.host.next), cwd), r)
    {
      ghost var n0, log0 := radGit.host.next, radGit.host.log;
      ghost var steps := [GitInitStep, InitStep];
      assert steps[1..] == [InitStep];
      SingleStep(radGit.Cfg(), radGit.host.replies, n0 + 1, cwd, InitStep);
      var created := radGit.Exec("git", ["init"], cwd, map[]);
      if created.Ok? {
        var _ := radGit.Init(cwd);
      }
      r := Ok(());
    }

    /** One attempt of the retried call. */
    method Try(cwd: string, op: Retried) returns (r: Result<()>)
      modifies radGit.host
      ensures Follows(radGit.host, old(radGit.host.next), old(radGit.host.log), Attempt(radGit.Cfg(), radGit.host.replies, old(radGit.host.next), cwd, op), r)
    {
      match op {
        case Publishing => r := radGit.Publish(cwd, PublishMessage);
        case Fetching => r := radGit.Fetch(cwd);
      }
    }

    /** What `handleGitPublish` and `handleGitFetch` share: try the call; on a
        `node must be running` error start the node and try once more; rethrow
        any other error. */
    method Recover(cwd: string, op: Retried) returns (r: Result<()>)
      requires radGit.radHome == radHome
      modifies radGit.host
      ensures Follows(radGit.host, old(radGit.host.next), old(radGit.host.log), Recovering(radGit.Cfg(), radGit.host.replies, old(radGit.host.next), cwd, op), r)
    {
      ghost var n0, log0 := radGit.host.next, radGit.host.log;
      ghost var first := Attempt(radGit.Cfg(), radGit.host.replies, n0, cwd, op);
      ghost var start := StartAfter(radGit.Cfg(), radGit.host.replies, n0, cwd, op);
      ghost var retry := RetryAfter(radGit.Cfg(), radGit.host.replies, n0, cwd, op);
      r := Try(cwd, op);
      if r.Err? && Contains(r.message, NodeNotRunning) {
        StartAfterAt(radGit.Cfg(), radGit.host.replies, n0, cwd, op, radGit.host.next);
        var _ := radGit.NodeStart(radHome);
        Regroup(log0, first.events, start.events);
        RetryAfterAt(radGit.Cfg(), radGit.host.replies, n0, cwd, op, radGit.host.next);
        r := Try(cwd, op);
        Regroup(log0, first.events + start.events, retry.events);
      }
    }

    method HandleGitPublish(cwd: string) returns (r: Result<()>)
      requires radGit.radHome == radHome
      modifies radGit.host
      ensures Follows(radGit.host, old(radGit.host.next), old(radGit.host.log), Recovering(radGit.Cfg(), radGit.host.replies, old(radGit.host.next), cwd, Publishing), r)
    {
      r := Recover(cwd, Publishing);
    }

    method HandleGitFetch(cwd: string) returns (r: Result<()>)
      requires radGit.radHome == radHome
      modifies radGit.host
      ensures Follows(radGit.host, old(radGit.host.next), old(radGit.host.log), Recovering(radGit.Cfg(), radGit.host.replies, old(radGit.host.next), cwd, Fetching), r)
    {
      r := Recover(cwd, Fetching);
    }

    /** `handleGitGetStatus`: the service's `status`, passed through. */
    method HandleGitGetStatus(cwd: string) returns (r: Result<bool>)
      modifies radGit.host
      ensures Follows(radGit.host, old(radGit.host.next), old(radGit.host.log), StatusTrace(radGit.Cfg(), radGit.host.replies, old(radGit.host.next), cwd), r)
    {
      r := radGit.Status(cwd);
    }

    /** The recovery branch of `handleGetIdentity`. */
    method SetUpProfile() returns (r: Result<string>)
      requires radGit.radHome == radHome
      modifies radGit.host
      ensures Follows(radGit.host, old(radGit.host.next), old(radGit.host.log),
        ProfileSetupTrace(radGit.Cfg(), radGit.host.replies, radGit.host.dirReplies, old(radGit.host.next), DirRequests(old(radGit.host.log))), r)
    {
      ghost var n0, log0 := radGit.host.next, radGit.host.log;
      ghost var auth := AuthTrace(radGit.Cfg(), radGit.host.replies, n0, radHome, DefaultAlias);
      SingleStep(radGit.Cfg(), radGit.host.replies, n0, radHome, AuthStep(DefaultAlias));
      var refused := radGit.host.MakeDirectory(radHome);
      if refused.Some? {
        r := Err(refused.value);
        return;
      }
      var created := radGit.Auth(radHome, DefaultAlias);
      Regroup(log0, [MakeDir(radHome)], auth.events);
      if created.Err? {
        r := Err(created.message);
        return;
      }
      r := radGit.Exec("rad", ["self"], radHome, map[]);
      Regroup(log0, [MakeDir(radHome)] + auth.events, [Run(StepInvocation(radGit.Cfg(), radHome, SelfStep))]);
    }

    /** The `try` block of `handleGetIdentity()`: make the profile home and,
        unless that throws, run `rad self` there. */
    method TryIdentity() returns (r: Result<string>)
      requires radGit.radHome == radHome
      modifies radGit.host
      ensures var d := DirRequests(old(radGit.host.log));
        var tried := FirstEvents(radGit.Cfg(), radGit.host.dirReplies, d);
        Follows(radGit.host, old(radGit.host.next), old(radGit.host.log),
          Trace(FirstAnswer(radGit.host.replies, radGit.host.dirReplies, old(radGit.host.next), d), tried, FirstUsed(radGit.host.dirReplies, d)), r)
      ensures DirRequests(radGit.host.log) == DirRequests(old(radGit.host.log)) + 1
    {
      ghost var log0 := radGit.host.log;
      var refused := radGit.host.MakeDirectory(radHome);
      DirRequestsAppend(log0, MakeDir(radHome));
      if refused.Some? {
        r := Err(refused.value);
      } else {
        ghost var log1 := radGit.host.log;
        r := radGit.Exec("rad", ["self"], radHome, map[]);
        DirRequestsAppend(log1, Run(StepInvocation(radGit.Cfg(), radHome, SelfStep)));
        Regroup(log0, [MakeDir(radHome)], [Run(StepInvocation(radGit.Cfg(), radHome, SelfStep))]);
      }
    }

    /** `handleGetIdentity()`. */
    method HandleGetIdentity() returns (r: Result<string>)
      requires radGit.radHome == radHome
      modifies radGit.host
      ensures Follows(radGit.host, old(radGit.host.next), old(radGit.host.log),
        IdentityTrace(radGit.Cfg(), radGit.host.replies, radGit.host.dirReplies, old(radGit.host.next), DirRequests(old(radGit.host.log))), r)
    {
      ghost var n0, log0 := radGit.host.next, radGit.host.log;
      ghost var d := DirRequests(log0);
      ghost var tried := FirstEvents(radGit.Cfg(), radGit.host.dirReplies, d);
      ghost var u := FirstUsed(radGit.host.dirReplies, d);
      ghost var whole := IdentityTrace(radGit.Cfg(), radGit.host.replies, radGit.host.dirReplies, n0, d);
      r := TryIdentity();
      if ProfileAbsent(r) {
        ghost var setup := ProfileSetupTrace(radGit.Cfg(), radGit.host.replies, radGit.host.dirReplies, n0 + u, d + 1);
        assert whole == Trace(setup.result, tried + setup.events, u + setup.used);
        r := SetUpProfile();
        Regroup(log0, tried, setup.events);
      }
    }

    /** `handleFsSearch(dirPath, query)` over the tree whose root listing is `root`. */
    method HandleFsSearch(dirPath: string, root: Listing, query: string) returns (r: Result<seq<FileEntry>>)
      ensures r == SearchListing(dirPath, root, query)
    {
      ghost var found := SearchListing(dirPath, root, query);
      r := Walk(dirPath, root, query, []);
      if found.Ok? {
        assert [] + found.value == found.value;
      }
    }
  }
}
