/** The process executor and the fixed command sequences of the repository
    service (`createRadicleService`).

    The operating system is an oracle: a `ProcessHost` answers the k-th process
    it is asked to run with `replies(k)` and records every request in `log`.
    Each operation has a pure specification (a `Trace`: the result, the
    events it appends to the log and the replies it consumes) and a method that performs it step by step
    against the host and is proved to follow that specification. */
module RadicleGit {
  import opened Base
  import opened Text

  /** How a process ended: with a numeric exit code, or without one (killed by a signal: `code` is `null`). */
  datatype ExitCode = Code(n: nat) | NoCode

  /** What running one process yields: its exit and the chunks it wrote to
      stdout and stderr, in order, or a spawn-level error such as `spawn rad ENOENT`. */
  datatype Outcome = Exited(code: ExitCode, out: seq<string>, err: seq<string>) | SpawnError(message: string)

  /** A process request: the binary, the literal argument vector (no shell), the working directory and the environment. */
  datatype Invocation = Invocation(binary: string, args: seq<string>, cwd: string, env: map<string, string>)

  /** What the outside world observes: a process run to completion, a detached
      process, a pause of `ms` milliseconds, or a recursive `mkdir`. */
  datatype Event = Run(inv: Invocation) | Detach(inv: Invocation) | Sleep(ms: nat) | MakeDir(path: string)

  /** The result of an operation, the events it caused, in order, and the number of host replies it consumed. */
  datatype Trace<T> = Trace(result: Result<T>, events: seq<Event>, used: nat)

  /** The service's configuration: the profile home, the two binaries and the host environment (`process.env`). */
  datatype Config = Config(radHome: string, gitBin: string, radBin: string, hostEnv: map<string, string>)

  /** One step of a fixed command sequence: an alias or binary, its arguments and extra environment. */
  datatype Step = Step(command: string, args: seq<string>, extra: map<string, string>)

  const ProfileVar: string := "RAD_HOME"
  const PassphraseVar: string := "RAD_PASSPHRASE"

  /** The host variables a child process may inherit. */
  const AllowedVars: seq<string> :=
    ["PATH", "HOME", "LANG", "LC_ALL", "TERM", "SSH_AUTH_SOCK", "GIT_EXEC_PATH", "GIT_SSH", "GIT_SSH_COMMAND"]

  const FailurePrefix: string := "Command failed with code "

  /** `rad node status` is polled at most this many times, `PollInterval` ms apart. */
  const PollBudget: nat := 20
  const PollInterval: nat := 500
  /** Extra wait once the node reports running, for its socket to accept connections. */
  const SocketGrace: nat := 1000

  // ---------------------------------------------------------------------------
  // The executor

  /** The binary an alias stands for; any other command is used as it is. */
  function BinaryFor(cfg: Config, command: string): string {
    if command == "git" then cfg.gitBin else if command == "rad" then cfg.radBin else command
  }


  /** The environment after copying the defined host variables among `names`, in order, onto `RAD_HOME`. */
  function Inherited(radHome: string, host: map<string, string>, names: seq<string>): map<string, string>
    decreases |names|
  {
    if names == [] then map[ProfileVar := radHome]
    else
      var env := Inherited(radHome, host, names[..|names| - 1]);
      var key := names[|names| - 1];
      if key in host then env[key := host[key]] else env
  }

  lemma {:induction false} InheritedContents(radHome: string, host: map<string, string>, names: seq<string>)
    requires ProfileVar !in names
    ensures var env := Inherited(radHome, host, names);
      && (forall k :: k in env <==> k == ProfileVar || (k in names && k in host))
      && env[ProfileVar] == radHome
      && (forall k :: k in env && k != ProfileVar ==> env[k] == host[k])
    decreases |names|
  {
    if names != [] {
      var init := names[..|names| - 1];
      assert forall k :: k in names <==> k in init || k == names[|names| - 1];
      InheritedContents(radHome, host, init);
    }
  }

  /** The child environment: `RAD_HOME` pinned to the profile home, the
      allow-listed host variables copied over it, and `extra` over both. */
  function ChildEnv(radHome: string, host: map<string, string>, extra: map<string, string>): map<string, string> {
    Inherited(radHome, host, AllowedVars) + extra
  }

  /** No host variable outside the allow-list reaches the child; `extra` wins
      on every key it names; `RAD_HOME` is the profile home unless `extra`
      overrides it; an allow-listed variable is copied exactly when the host
      defines it, with the host's value. */
  lemma ChildEnvContents(radHome: string, host: map<string, string>, extra: map<string, string>)
    ensures var env := ChildEnv(radHome, host, extra);
      && (forall k :: k in env <==> (k in AllowedVars && k in host) || k == ProfileVar || k in extra)
      && (forall k :: k in extra ==> env[k] == extra[k])
      && (ProfileVar !in extra ==> env[ProfileVar] == radHome)
      && (forall k :: k in AllowedVars && k in host && k !in extra ==> env[k] == host[k])
  {
    assert ProfileVar !in AllowedVars;
    InheritedContents(radHome, host, AllowedVars);
  }

  /** Concatenation of the chunks a stream delivered, in order. */
  function Concat(chunks: seq<string>): string {
    if chunks == [] then [] else Concat(chunks[..|chunks| - 1]) + chunks[|chunks| - 1]
  }

  function CodeText(c: ExitCode): string {
    match c
    case Code(n) => NatToString(n)
    case NoCode => "null"
  }

  /** The process exited with code 0. */
  predicate Succeeds(o: Outcome) {
    o.Exited? && o.code == Code(0)
  }

  /** What a successful command returns: its stdout, trimmed. */
  function Output(o: Outcome): string
    requires o.Exited?
  {
    Trim(Concat(o.out))
  }

  /** The error of a failed command: `Command failed with code N: ` and stderr,
      or stdout when stderr is empty; a spawn error is passed on as it is. */
  function FailureMessage(o: Outcome): string {
    match o
    case SpawnError(m) => m
    case Exited(code, out, err) =>
      FailurePrefix + CodeText(code) + ": " + (if Concat(err) != [] then Concat(err) else Concat(out))
  }

  /** How the executor settles on a process's end. */
  function Resolve(o: Outcome): Result<string> {
    if Succeeds(o) then Ok(Output(o)) else Err(FailureMessage(o))
  }

  /** The exit code a failure message reports, read back from its text. */
  function CodeOf(message: string): Option<nat> {
    if !StartsWith(message, FailurePrefix) then None
    else
      var digits := LeadingDigits(message[|FailurePrefix|..]);
      if digits == [] then None else Some(DigitsValue(digits))
  }

  /** The code rendered into a failure message reads back unchanged, whatever text follows it. */
  lemma CodeOfRendered(n: nat, text: string)
    ensures CodeOf(FailurePrefix + NatToString(n) + ": " + text) == Some(n)
  {
    var m := FailurePrefix + NatToString(n) + ": " + text;
    assert m[|FailurePrefix|..] == NatToString(n) + (": " + text);
    NatToStringDigits(n);
    LeadingDigitsStopsAtSeparator(NatToString(n), ": " + text);
    NatToStringRoundTrip(n);
  }

  /** A non-zero exit is never a success: the error carries that exact exit
      code, readable back from the message, and ends with stderr, or stdout
      when stderr is empty. */
  lemma FailureCarriesCode(n: nat, out: seq<string>, err: seq<string>)
    requires n != 0
    ensures var r := Resolve(Exited(Code(n), out, err));
      && r.Err?
      && CodeOf(r.message) == Some(n)
      && EndsWith(r.message, if Concat(err) != [] then Concat(err) else Concat(out))
  {
    var text := if Concat(err) != [] then Concat(err) else Concat(out);
    var m := FailurePrefix + NatToString(n) + ": " + text;
    assert Resolve(Exited(Code(n), out, err)) == Err(m);
    CodeOfRendered(n, text);
    assert m[|m| - |text|..] == text;
  }

  /** A process killed by a signal fails with no exit code to read back. */
  lemma SignalledCarriesNoCode(out: seq<string>, err: seq<string>)
    ensures var r := Resolve(Exited(NoCode, out, err));
      r.Err? && CodeOf(r.message) == None
  {
    var r := Resolve(Exited(NoCode, out, err));
    assert r.message[|FailurePrefix|..][0] == 'n';
  }

  // ---------------------------------------------------------------------------
  // Fixed command sequences

  function StepInvocation(cfg: Config, cwd: string, s: Step): Invocation {
    Invocation(BinaryFor(cfg, s.command), s.args, cwd, ChildEnv(cfg.radHome, cfg.hostEnv, s.extra))
  }

  /** Runs the steps in order, each awaited; the first failure stops the sequence and is rethrown. */
  function RunSteps(cfg: Config, replies: nat -> Outcome, n: nat, cwd: string, steps: seq<Step>): Trace<()>
    decreases |steps|
  {
    if steps == [] then Trace(Ok(()), [], 0)
    else
      var ran := [Run(StepInvocation(cfg, cwd, steps[0]))];
      if !Succeeds(replies(n)) then Trace(Err(FailureMessage(replies(n))), ran, 1)
      else
        var rest := RunSteps(cfg, replies, n + 1, cwd, steps[1..]);
        Trace(rest.result, ran + rest.events, 1 + rest.used)
  }

  /** The index of the first of `count` replies from `n` on that resolves to an error, or `count`. */
  function FirstFailure(replies: nat -> Outcome, n: nat, count: nat): (f: nat)
    ensures f <= count
    decreases count
  {
    if count == 0 then 0
    else if !Succeeds(replies(n)) then 0
    else 1 + FirstFailure(replies, n + 1, count - 1)
  }

  lemma {:induction false} FirstFailureIsFirst(replies: nat -> Outcome, n: nat, count: nat)
    ensures var f := FirstFailure(replies, n, count);
      && (forall k :: n <= k < n + f ==> Succeeds(replies(k)))
      && (f < count ==> !Succeeds(replies(n + f)))
    decreases count
  {
    if count > 0 && Succeeds(replies(n)) {
      FirstFailureIsFirst(replies, n + 1, count - 1);
    }
  }

  /** The number of processes run to completion in a list of events. */
  function RunCount(events: seq<Event>): nat {
    if events == [] then 0 else (if events[0].Run? then 1 else 0) + RunCount(events[1..])
  }

  lemma {:induction false} RunCountAppend(a: seq<Event>, b: seq<Event>)
    ensures RunCount(a + b) == RunCount(a) + RunCount(b)
  {
    if a != [] {
      assert (a + b)[1..] == a[1..] + b;
      RunCountAppend(a[1..], b);
    } else {
      assert a + b == b;
    }
  }

  /** The number of detached processes launched in a list of events. */
  function DetachCount(events: seq<Event>): nat {
    if events == [] then 0 else (if events[0].Detach? then 1 else 0) + DetachCount(events[1..])
  }

  lemma {:induction false} DetachCountAppend(a: seq<Event>, b: seq<Event>)
    ensures DetachCount(a + b) == DetachCount(a) + DetachCount(b)
  {
    if a != [] {
      assert (a + b)[1..] == a[1..] + b;
      DetachCountAppend(a[1..], b);
    } else {
      assert a + b == b;
    }
  }

  /** The processes a list of steps runs, in order. */
  function Runs(cfg: Config, cwd: string, steps: seq<Step>): seq<Event> {
    if steps == [] then [] else [Run(StepInvocation(cfg, cwd, steps[0]))] + Runs(cfg, cwd, steps[1..])
  }

  lemma {:induction false} RunsCounts(cfg: Config, cwd: string, steps: seq<Step>)
    ensures |Runs(cfg, cwd, steps)| == |steps|
    ensures RunCount(Runs(cfg, cwd, steps)) == |steps| && DetachCount(Runs(cfg, cwd, steps)) == 0
  {
    if steps != [] {
      var head := [Run(StepInvocation(cfg, cwd, steps[0]))];
      RunsCounts(cfg, cwd, steps[1..]);
      RunCountAppend(head, Runs(cfg, cwd, steps[1..]));
      DetachCountAppend(head, Runs(cfg, cwd, steps[1..]));
      assert head[1..] == [];
    }
  }

  /** How many steps of a sequence run: all of them, or up to and including the first failing one. */
  function StepsRun(replies: nat -> Outcome, n: nat, count: nat): nat {
    var f := FirstFailure(replies, n, count);
    if f < count then f + 1 else count
  }

  /** A command sequence runs its steps strictly in order, one process and one
      reply each, up to and including the first failing one and no further. */
  lemma {:induction false} RunStepsEvents(cfg: Config, replies: nat -> Outcome, n: nat, cwd: string, steps: seq<Step>)
    ensures StepsRun(replies, n, |steps|) <= |steps|
    ensures RunSteps(cfg, replies, n, cwd, steps).events == Runs(cfg, cwd, steps[..StepsRun(replies, n, |steps|)])
    ensures RunSteps(cfg, replies, n, cwd, steps).used == StepsRun(replies, n, |steps|)
    decreases |steps|
  {
    if steps != [] {
      var k := StepsRun(replies, n, |steps|);
      assert steps[..k][0] == steps[0];
      if Succeeds(replies(n)) {
        RunStepsEvents(cfg, replies, n + 1, cwd, steps[1..]);
        assert steps[..k][1..] == steps[1..][..k - 1];
      } else {
        assert steps[..k][1..] == [];
      }
    }
  }

  /** Every reply a command sequence consumes belongs to one process it ran to
      completion, one per step at most, and it launches nothing detached. */
  lemma RunStepsCounts(cfg: Config, replies: nat -> Outcome, n: nat, cwd: string, steps: seq<Step>)
    ensures var t := RunSteps(cfg, replies, n, cwd, steps);
      RunCount(t.events) == t.used <= |steps| && DetachCount(t.events) == 0
  {
    RunStepsEvents(cfg, replies, n, cwd, steps);
    RunsCounts(cfg, cwd, steps[..StepsRun(replies, n, |steps|)]);
  }

  /** A command sequence succeeds exactly when every step succeeds, and
      otherwise throws the first failure's error unchanged. */
  lemma {:induction false} RunStepsResult(cfg: Config, replies: nat -> Outcome, n: nat, cwd: string, steps: seq<Step>)
    ensures var t := RunSteps(cfg, replies, n, cwd, steps);
      var f := FirstFailure(replies, n, |steps|);
      && (t.result.Ok? <==> f == |steps|)
      && (t.result.Err? ==> t.result.message == FailureMessage(replies(n + f)))
    decreases |steps|
  {
    if steps != [] && Succeeds(replies(n)) {
      RunStepsResult(cfg, replies, n + 1, cwd, steps[1..]);
    }
  }

  /** Running `a + b` is running `a`, then, only if `a` succeeded, running `b` on the following replies. */
  lemma {:induction false} RunStepsConcat(cfg: Config, replies: nat -> Outcome, n: nat, cwd: string, a: seq<Step>, b: seq<Step>)
    ensures var ta := RunSteps(cfg, replies, n, cwd, a);
      var tb := RunSteps(cfg, replies, n + |a|, cwd, b);
      RunSteps(cfg, replies, n, cwd, a + b)
      == if ta.result.Err? then ta else Trace(tb.result, ta.events + tb.events, ta.used + tb.used)
    decreases |a|
  {
    if a == [] {
      assert a + b == b;
    } else {
      var ab := a + b;
      assert ab[0] == a[0];
      assert ab[1..] == a[1..] + b;
      if Succeeds(replies(n)) {
        RunStepsConcat(cfg, replies, n + 1, cwd, a[1..], b);
        var ta' := RunSteps(cfg, replies, n + 1, cwd, a[1..]);
        var tb := RunSteps(cfg, replies, n + |a|, cwd, b);
        var head := [Run(StepInvocation(cfg, cwd, a[0]))];
        if ta'.result.Ok? {
          Regroup(head, ta'.events, tb.events);
        }
      }
    }
  }

  const StageAll: Step := Step("git", ["add", "."], map[])
  function Commit(message: string): Step { Step("git", ["commit", "-m", message], map[]) }
  const Sync: Step := Step("rad", ["sync"], map[])

  function PublishSteps(message: string): seq<Step> {
    [StageAll, Commit(message), Sync]
  }

  const InitStep: Step := Step("rad", ["init", "--private", "--no-confirm"], map[])
  const FetchStep: Step := Step("rad", ["sync", "--fetch"], map[])
  const StatusStep: Step := Step("git", ["status", "--porcelain"], map[])
  function AuthStep(alias: string): Step { Step("rad", ["auth", "--alias", alias], map[PassphraseVar := ""]) }

  /** `init`: `rad init --private --no-confirm`. */
  function InitTrace(cfg: Config, replies: nat -> Outcome, n: nat, cwd: string): Trace<()> {
    RunSteps(cfg, replies, n, cwd, [InitStep])
  }

  /** `publish`: `git add .`, then `git commit -m message`, then `rad sync`. */
  function PublishTrace(cfg: Config, replies: nat -> Outcome, n: nat, cwd: string, message: string): Trace<()> {
    RunSteps(cfg, replies, n, cwd, PublishSteps(message))
  }

  /** `fetch`: `rad sync --fetch`. */
  function FetchTrace(cfg: Config, replies: nat -> Outcome, n: nat, cwd: string): Trace<()> {
    RunSteps(cfg, replies, n, cwd, [FetchStep])
  }

  /** `auth`: `rad auth --alias alias` with an empty `RAD_PASSPHRASE`. */
  function AuthTrace(cfg: Config, replies: nat -> Outcome, n: nat, cwd: string, alias: string): Trace<()> {
    RunSteps(cfg, replies, n, cwd, [AuthStep(alias)])
  }

  /** `status`: whether `git status --porcelain` printed anything. */
  function StatusTrace(cfg: Config, replies: nat -> Outcome, n: nat, cwd: string): Trace<bool> {
    var q := Resolve(replies(n));
    Trace(if q.Ok? then Ok(|q.value| > 0) else Err(q.message), [Run(StepInvocation(cfg, cwd, StatusStep))], 1)
  }

  /** A one-step sequence runs its step once and settles as the executor does. */
  lemma SingleStep(cfg: Config, replies: nat -> Outcome, n: nat, cwd: string, s: Step)
    ensures var t := RunSteps(cfg, replies, n, cwd, [s]);
      && t.events == [Run(StepInvocation(cfg, cwd, s))] && t.used == 1
      && (t.result.Ok? <==> Succeeds(replies(n)))
      && (t.result.Err? ==> t.result.message == FailureMessage(replies(n)))
  {
    assert [s][1..] == [];
  }

  /** `publish` issues `git add .`, `git commit -m message` and `rad sync`, in
      that order, each only after the previous one succeeded; it succeeds
      exactly when all three do, and otherwise rethrows the failing step's
      error unchanged. */
  lemma PublishSequence(cfg: Config, replies: nat -> Outcome, n: nat, cwd: string, message: string)
    ensures var t := PublishTrace(cfg, replies, n, cwd, message);
      var k := StepsRun(replies, n, 3);
      && 1 <= k <= 3
      && t.events == Runs(cfg, cwd, PublishSteps(message)[..k])
      && t.used == k
      && (forall j :: n <= j < n + k - 1 ==> Succeeds(replies(j)))
      && (t.result.Ok? <==> k == 3 && Succeeds(replies(n + 2)))
      && (t.result.Err? ==> t.result.message == FailureMessage(replies(n + k - 1)))
  {
    RunStepsEvents(cfg, replies, n, cwd, PublishSteps(message));
    RunStepsResult(cfg, replies, n, cwd, PublishSteps(message));
    FirstFailureIsFirst(replies, n, 3);
  }

  /** `publish` case by case: which of its three steps ran and how it ended. */
  lemma PublishCases(cfg: Config, replies: nat -> Outcome, n: nat, cwd: string, message: string)
    ensures var e1 := Run(StepInvocation(cfg, cwd, StageAll));
      var e2 := Run(StepInvocation(cfg, cwd, Commit(message)));
      var e3 := Run(StepInvocation(cfg, cwd, Sync));
      PublishTrace(cfg, replies, n, cwd, message)
      == if !Succeeds(replies(n)) then Trace(Err(FailureMessage(replies(n))), [e1], 1)
         else if !Succeeds(replies(n + 1)) then Trace(Err(FailureMessage(replies(n + 1))), [e1, e2], 2)
         else if !Succeeds(replies(n + 2)) then Trace(Err(FailureMessage(replies(n + 2))), [e1, e2, e3], 3)
         else Trace(Ok(()), [e1, e2, e3], 3)
  {
    var s := PublishSteps(message);
    var e1 := Run(StepInvocation(cfg, cwd, StageAll));
    var e2 := Run(StepInvocation(cfg, cwd, Commit(message)));
    var e3 := Run(StepInvocation(cfg, cwd, Sync));
    assert s[1..] == [Commit(message), Sync];
    assert s[1..][1..] == [Sync];
    var t3 := RunSteps(cfg, replies, n + 2, cwd, [Sync]);
    SingleStep(cfg, replies, n + 2, cwd, Sync);
    var t2 := RunSteps(cfg, replies, n + 1, cwd, [Commit(message), Sync]);
    assert Succeeds(replies(n + 1)) ==> t2 == Trace(t3.result, [e2] + t3.events, 1 + t3.used);
    assert [e1] + ([e2] + [e3]) == [e1, e2, e3];
  }

  /** `auth` runs `rad auth --alias alias` once, with `RAD_PASSPHRASE` set to the empty string. */
  lemma AuthPassphraseEmpty(cfg: Config, replies: nat -> Outcome, n: nat, cwd: string, alias: string)
    ensures var t := AuthTrace(cfg, replies, n, cwd, alias);
      && |t.events| == 1
      && t.events[0].Run?
      && t.events[0].inv.binary == cfg.radBin
      && t.events[0].inv.args == ["auth", "--alias", alias]
      && PassphraseVar in t.events[0].inv.env
      && t.events[0].inv.env[PassphraseVar] == ""
      && (t.result.Ok? <==> Succeeds(replies(n)))
  {
    SingleStep(cfg, replies, n, cwd, AuthStep(alias));
    ChildEnvContents(cfg.radHome, cfg.hostEnv, map[PassphraseVar := ""]);
  }

  /** `status` answers exactly when `git status --porcelain` exits with 0, and
      then says "dirty" exactly when the output holds a non-whitespace
      character; a failing query is rethrown, never read as clean. */
  lemma StatusDirtyIffNonBlank(cfg: Config, replies: nat -> Outcome, n: nat, cwd: string)
    ensures var t := StatusTrace(cfg, replies, n, cwd);
      var o := replies(n);
      && (t.result.Ok? <==> o.Exited? && o.code == Code(0))
      && (t.result.Ok? ==> (t.result.value <==> !Blank(Concat(o.out))))
      && (t.result.Err? ==> t.result.message == FailureMessage(o))
  {
    var o := replies(n);
    if Succeeds(o) {
      TrimEmptyIffBlank(Concat(o.out));
      assert Resolve(o) == Ok(Trim(Concat(o.out)));
    }
  }

  // ---------------------------------------------------------------------------
  // Starting the node

  const StatusQueryStep: Step := Step("rad", ["node", "status"], map[])

  /** A status answer counts as "running" when the query succeeded and its
      output mentions neither `stopped` nor `Node is stopped`; the second
      phrase contains the first, so testing the first is enough. */
  predicate Running(o: Outcome) {
    Succeeds(o) && !Contains(Output(o), "stopped")
  }

  /** The second "stopped" test of the poll is subsumed by the first. */
  lemma NodeIsStoppedMentionsStopped(s: string)
    requires Contains(s, "Node is stopped")
    ensures Contains(s, "stopped")
  {
    assert "Node is stopped" == "Node is " + "stopped" + "";
    ContainsPiece(s, "Node is ", "stopped", "");
  }

  /** One attempt: wait, then query the node's status. */
  function Probe(cfg: Config, cwd: string): seq<Event> {
    [Sleep(PollInterval), Run(StepInvocation(cfg, cwd, StatusQueryStep))]
  }

  lemma ProbeCounts(cfg: Config, cwd: string)
    ensures RunCount(Probe(cfg, cwd)) == 1 && DetachCount(Probe(cfg, cwd)) == 0
  {
    var p := Probe(cfg, cwd);
    assert p[1..][1..] == [];
    assert RunCount(p[1..]) == 1 && DetachCount(p[1..]) == 0;
  }

  /** `k` attempts, in order. */
  function Polls(cfg: Config, cwd: string, k: nat): seq<Event> {
    if k == 0 then [] else Polls(cfg, cwd, k - 1) + Probe(cfg, cwd)
  }

  lemma {:induction false} PollsCounts(cfg: Config, cwd: string, k: nat)
    ensures RunCount(Polls(cfg, cwd, k)) == k && DetachCount(Polls(cfg, cwd, k)) == 0
  {
    if k > 0 {
      PollsCounts(cfg, cwd, k - 1);
      ProbeCounts(cfg, cwd);
      RunCountAppend(Polls(cfg, cwd, k - 1), Probe(cfg, cwd));
      DetachCountAppend(Polls(cfg, cwd, k - 1), Probe(cfg, cwd));
    }
  }

  /** The offset of the first of `budget` status answers from `n` on that reports running, or `budget`. */
  function FirstRunning(replies: nat -> Outcome, n: nat, budget: nat): (f: nat)
    ensures f <= budget
    decreases budget
  {
    if budget == 0 then 0
    else if Running(replies(n)) then 0
    else 1 + FirstRunning(replies, n + 1, budget - 1)
  }

  lemma {:induction false} FirstRunningIsFirst(replies: nat -> Outcome, n: nat, budget: nat)
    ensures var f := FirstRunning(replies, n, budget);
      && (forall k :: n <= k < n + f ==> !Running(replies(k)))
      && (f < budget ==> Running(replies(n + f)))
    decreases budget
  {
    if budget > 0 && !Running(replies(n)) {
      FirstRunningIsFirst(replies, n + 1, budget - 1);
    }
  }

  /** Conversely, the offset of an answer that reports running, with none before it, is `FirstRunning`. */
  lemma {:induction false} FirstRunningUnique(replies: nat -> Outcome, n: nat, budget: nat, f: nat)
    requires f <= budget
    requires forall k :: n <= k < n + f ==> !Running(replies(k))
    requires f < budget ==> Running(replies(n + f))
    ensures FirstRunning(replies, n, budget) == f
    decreases budget
  {
    if budget > 0 && f > 0 {
      FirstRunningUnique(replies, n + 1, budget - 1, f - 1);
    }
  }

  /** The number of status queries when the `f`-th answer is the first to report running. */
  function Attempts(f: nat): nat {
    if f < PollBudget then f + 1 else PollBudget
  }

  /** The polling phase when the `f`-th answer is the first to report running:
      `f + 1` attempts and the grace pause, or the whole budget. */
  function PollPhase(cfg: Config, cwd: string, f: nat): seq<Event> {
    if f < PollBudget then Polls(cfg, cwd, f + 1) + [Sleep(SocketGrace)] else Polls(cfg, cwd, PollBudget)
  }

  /** The daemon-start command, detached, with the whole host environment and `RAD_HOME` pinned. */
  function NodeLaunch(cfg: Config, cwd: string): Invocation {
    Invocation(cfg.radBin, ["node", "start"], cwd, cfg.hostEnv[ProfileVar := cfg.radHome])
  }

  /** `nodeStart`: launch the node detached, then poll until an answer reports
      it running (and wait the grace period) or 20 attempts have been made;
      never throws. */
  function NodeStartTrace(cfg: Config, replies: nat -> Outcome, n: nat, cwd: string): Trace<()> {
    var f := FirstRunning(replies, n, PollBudget);
    Trace(Ok(()), [Detach(NodeLaunch(cfg, cwd))] + PollPhase(cfg, cwd, f), Attempts(f))
  }

  /** The polling phase consumes one reply per status query and launches nothing. */
  lemma PollPhaseCounts(cfg: Config, cwd: string, f: nat)
    ensures RunCount(PollPhase(cfg, cwd, f)) == Attempts(f) && DetachCount(PollPhase(cfg, cwd, f)) == 0
  {
    if f < PollBudget {
      var grace: seq<Event> := [Sleep(SocketGrace)];
      assert RunCount(grace) == 0 && DetachCount(grace) == 0 by { assert grace[1..] == []; }
      PollsCounts(cfg, cwd, f + 1);
      RunCountAppend(Polls(cfg, cwd, f + 1), grace);
      DetachCountAppend(Polls(cfg, cwd, f + 1), grace);
    } else {
      PollsCounts(cfg, cwd, PollBudget);
    }
  }

  /** Every reply `nodeStart` consumes answers one status query, at most 20 of
      them, and it launches exactly one detached node. */
  lemma NodeStartCounts(cfg: Config, replies: nat -> Outcome, n: nat, cwd: string)
    ensures var t := NodeStartTrace(cfg, replies, n, cwd);
      RunCount(t.events) == t.used <= PollBudget && DetachCount(t.events) == 1
  {
    var f := FirstRunning(replies, n, PollBudget);
    var launch: seq<Event> := [Detach(NodeLaunch(cfg, cwd))];
    assert RunCount(launch) == 0 && DetachCount(launch) == 1 by { assert launch[1..] == []; }
    PollPhaseCounts(cfg, cwd, f);
    RunCountAppend(launch, PollPhase(cfg, cwd, f));
    DetachCountAppend(launch, PollPhase(cfg, cwd, f));
  }

  /** `nodeStart` issues between 1 and 20 status queries and returns normally
      whatever the answers; it stops early exactly after the first answer that
      reports the node running. */
  lemma NodeStartBounded(cfg: Config, replies: nat -> Outcome, n: nat, cwd: string)
    ensures var t := NodeStartTrace(cfg, replies, n, cwd);
      var q := t.used;
      && t.result == Ok(())
      && 1 <= q <= PollBudget
      && (forall k :: n <= k < n + q - 1 ==> !Running(replies(k)))
      && (q < PollBudget ==> Running(replies(n + q - 1)))
  {
    var f := FirstRunning(replies, n, PollBudget);
    FirstRunningIsFirst(replies, n, PollBudget);
    var q := NodeStartTrace(cfg, replies, n, cwd).used;
    assert q == Attempts(f);
    forall k | n <= k < n + q - 1
      ensures !Running(replies(k))
    {
      assert k < n + f;
    }
  }

  // ---------------------------------------------------------------------------
  // The imperative side

  /** How many directory requests `log` records. */
  function DirRequests(log: seq<Event>): nat {
    if log == [] then 0 else DirRequests(log[..|log| - 1]) + if log[|log| - 1].MakeDir? then 1 else 0
  }

  /** One more event is one more directory request exactly when it is one. */
  lemma DirRequestsAppend(log: seq<Event>, e: Event)
    ensures DirRequests(log + [e]) == DirRequests(log) + if e.MakeDir? then 1 else 0
  {
    assert (log + [e])[..|log|] == log;
  }

  /** The host's new log and reply counter, and the result, follow trace `t`. */
  ghost predicate Follows<T>(h: ProcessHost, n0: nat, log0: seq<Event>, t: Trace<T>, r: Result<T>)
    reads h
  {
    r == t.result && h.log == log0 + t.events && h.next == n0 + t.used
  }

  /** The operating system as seen by the service: process `k` ends as
      `replies(k)`, and the `k`-th directory request is refused with the
      message `dirReplies(k)` or, when that is `None`, succeeds. */
  class ProcessHost {
    const replies: nat -> Outcome
    const dirReplies: nat -> Option<string>
    var next: nat
    var log: seq<Event>

    constructor (replies: nat -> Outcome, dirReplies: nat -> Option<string>)
      ensures forall k :: this.replies(k) == replies(k) && this.dirReplies(k) == dirReplies(k)
      ensures next == 0 && log == []
    {
      this.replies := replies;
      this.dirReplies := dirReplies;
      next := 0;
      log := [];
    }

    /** Runs a process to completion and reports how it ended. */
    method Spawn(inv: Invocation) returns (o: Outcome)
      modifies this
      ensures o == replies(old(next))
      ensures next == old(next) + 1 && log == old(log) + [Run(inv)]
    {
      o := replies(next);
      next := next + 1;
      log := log + [Run(inv)];
    }

    /** Launches a process that is neither awaited nor referenced afterwards. */
    method SpawnDetached(inv: Invocation)
      modifies this
      ensures next == old(next) && log == old(log) + [Detach(inv)]
    {
      log := log + [Detach(inv)];
    }

    method Pause(ms: nat)
      modifies this
      ensures next == old(next) && log == old(log) + [Sleep(ms)]
    {
      log := log + [Sleep(ms)];
    }

    /** `fs.mkdir(path, { recursive: true })`: `refused` is the message of the
        error it throws, if any. */
    method MakeDirectory(path: string) returns (refused: Option<string>)
      modifies this
      ensures refused == dirReplies(DirRequests(old(log)))
      ensures next == old(next) && log == old(log) + [MakeDir(path)]
    {
      refused := dirReplies(DirRequests(log));
      log := log + [MakeDir(path)];
    }
  }

  /** Builds the child environment as `exec` does: start from `RAD_HOME`, copy
      the defined allow-listed host variables one by one, then apply `extra`. */
  method BuildEnv(radHome: string, host: map<string, string>, extra: map<string, string>) returns (env: map<string, string>)
    ensures env == ChildEnv(radHome, host, extra)
  {
    env := map[ProfileVar := radHome];
    for i := 0 to |AllowedVars|
      invariant env == Inherited(radHome, host, AllowedVars[..i])
    {
      var key := AllowedVars[i];
      assert AllowedVars[..i + 1][..i] == AllowedVars[..i];
      if key in host {
        env := env[key := host[key]];
      }
    }
    assert AllowedVars[..|AllowedVars|] == AllowedVars;
    env := env + extra;
  }

  /** Accumulates a stream's chunks as the `data` listener does. */
  method Collect(chunks: seq<string>) returns (text: string)
    ensures text == Concat(chunks)
  {
    text := "";
    for i := 0 to |chunks|
      invariant text == Concat(chunks[..i])
    {
      assert chunks[..i + 1][..i] == chunks[..i];
      text := text + chunks[i];
    }
    assert chunks[..|chunks|] == chunks;
  }

  /** The repository service of one profile home. */
  class Service {
    const radHome: string
    const gitBin: string
    const radBin: string
    const hostEnv: map<string, string>
    const host: ProcessHost

    /** `createRadicleService(radHome, { git, rad })`: an absent binary path defaults to `git` / `rad`. */
    constructor (radHome: string, git: Option<string>, rad: Option<string>, hostEnv: map<string, string>, host: ProcessHost)
      ensures this.radHome == radHome && this.hostEnv == hostEnv && this.host == host
      ensures gitBin == git.GetOr("git") && radBin == rad.GetOr("rad")
    {
      this.radHome := radHome;
      this.gitBin := git.GetOr("git");
      this.radBin := rad.GetOr("rad");
      this.hostEnv := hostEnv;
      this.host := host;
    }

    function Cfg(): Config {
      Config(radHome, gitBin, radBin, hostEnv)
    }

    /** `exec`: runs one process with the sandboxed environment and settles on its exit. */
    method Exec(command: string, args: seq<string>, cwd: string, extra: map<string, string>) returns (r: Result<string>)
      modifies host
      ensures r == Resolve(host.replies(old(host.next)))
      ensures host.next == old(host.next) + 1
      ensures host.log == old(host.log) + [Run(StepInvocation(Cfg(), cwd, Step(command, args, extra)))]
    {
      var binary := command;
      if command == "git" { binary := gitBin; }
      if command == "rad" { binary := radBin; }
      var env := BuildEnv(radHome, hostEnv, extra);
      var o := host.Spawn(Invocation(binary, args, cwd, env));
      match o {
        case SpawnError(m) =>
          r := Err(m);
        case Exited(code, out, err) =>
          var stdout := Collect(out);
          var stderr := Collect(err);
          if code == Code(0) {
            r := Ok(Trim(stdout));
          } else {
            r := Err(FailurePrefix + CodeText(code) + ": " + (if stderr != "" then stderr else stdout));
          }
      }
    }

    /** Awaits one step of a command sequence, dropping its output; its failure is rethrown. */
    method RunStep(cwd: string, s: Step) returns (r: Result<()>)
      modifies host
      ensures var o := host.replies(old(host.next));
        r == if Succeeds(o) then Ok(()) else Err(FailureMessage(o))
      ensures host.next == old(host.next) + 1
      ensures host.log == old(host.log) + [Run(StepInvocation(Cfg(), cwd, s))]
    {
      var x := Exec(s.command, s.args, cwd, s.extra);
      r := if x.Ok? then Ok(()) else Err(x.message);
    }

    method Init(cwd: string) returns (r: Result<()>)
      modifies host
      ensures Follows(host, old(host.next), old(host.log), InitTrace(Cfg(), host.replies, old(host.next), cwd), r)
    {
      SingleStep(Cfg(), host.replies, host.next, cwd, InitStep);
      r := RunStep(cwd, InitStep);
    }

    method Publish(cwd: string, message: string) returns (r: Result<()>)
      modifies host
      ensures Follows(host, old(host.next), old(host.log), PublishTrace(Cfg(), host.replies, old(host.next), cwd, message), r)
    {
      ghost var log0 := host.log;
      ghost var e1 := Run(StepInvocation(Cfg(), cwd, StageAll));
      ghost var e2 := Run(StepInvocation(Cfg(), cwd, Commit(message)));
      ghost var e3 := Run(StepInvocation(Cfg(), cwd, Sync));
      PublishCases(Cfg(), host.replies, host.next, cwd, message);
      r := RunStep(cwd, StageAll);
      if r.Err? { return; }
      r := RunStep(cwd, Commit(message));
      Regroup(log0, [e1], [e2]);
      assert [e1] + [e2] == [e1, e2];
      if r.Err? { return; }
      r := RunStep(cwd, Sync);
      Regroup(log0, [e1, e2], [e3]);
      assert [e1, e2] + [e3] == [e1, e2, e3];
    }

    method Fetch(cwd: string) returns (r: Result<()>)
      modifies host
      ensures Follows(host, old(host.next), old(host.log), FetchTrace(Cfg(), host.replies, old(host.next), cwd), r)
    {
      SingleStep(Cfg(), host.replies, host.next, cwd, FetchStep);
      r := RunStep(cwd, FetchStep);
    }

    method Status(cwd: string) returns (r: Result<bool>)
      modifies host
      ensures Follows(host, old(host.next), old(host.log), StatusTrace(Cfg(), host.replies, old(host.next), cwd), r)
    {
      var output := Exec(StatusStep.command, StatusStep.args, cwd, StatusStep.extra);
      r := if output.Ok? then Ok(|output.value| > 0) else Err(output.message);
    }

    method Auth(cwd: string, alias: string) returns (r: Result<()>)
      modifies host
      ensures Follows(host, old(host.next), old(host.log), AuthTrace(Cfg(), host.replies, old(host.next), cwd, alias), r)
    {
      SingleStep(Cfg(), host.replies, host.next, cwd, AuthStep(alias));
      r := RunStep(cwd, AuthStep(alias));
    }

    /** One attempt of the supervisor: wait 500 ms, then ask whether the node
        runs; a failing query or a "stopped" answer means not yet. */
    method Poll(cwd: string) returns (running: bool)
      modifies host
      ensures running == Running(host.replies(old(host.next)))
      ensures host.next == old(host.next) + 1
      ensures host.log == old(host.log) + Probe(Cfg(), cwd)
    {
      host.Pause(PollInterval);
      var status := Exec(StatusQueryStep.command, StatusQueryStep.args, cwd, StatusQueryStep.extra);
      if status.Ok? && Contains(status.value, "Node is stopped") {
        NodeIsStoppedMentionsStopped(status.value);
      }
      running := status.Ok? && !(Contains(status.value, "stopped") || Contains(status.value, "Node is stopped"));
    }

    /** The polling loop of `nodeStart`: up to 20 attempts, stopping after the
        first that finds the node running and then waiting the grace period.
        `f` is the offset of that first answer, or 20 when none reported running. */
    method AwaitNode(cwd: string) returns (ghost f: nat)
      modifies host
      ensures f <= PollBudget
      ensures forall k :: old(host.next) <= k < old(host.next) + f ==> !Running(host.replies(k))
      ensures f < PollBudget ==> Running(host.replies(old(host.next) + f))
      ensures host.next == old(host.next) + Attempts(f)
      ensures host.log == old(host.log) + PollPhase(Cfg(), cwd, f)
    {
      ghost var n0, log0 := host.next, host.log;
      for i := 0 to PollBudget
        invariant host.next == n0 + i
        invariant host.log == log0 + Polls(Cfg(), cwd, i)
        invariant forall k :: n0 <= k < n0 + i ==> !Running(host.replies(k))
      {
        var running := Poll(cwd);
        Regroup(log0, Polls(Cfg(), cwd, i), Probe(Cfg(), cwd));
        if running {
          host.Pause(SocketGrace);
          Regroup(log0, Polls(Cfg(), cwd, i + 1), [Sleep(SocketGrace)]);
          return i;
        }
      }
      return PollBudget;
    }

    /** `nodeStart`: launch the node detached, then wait for it. */
    method NodeStart(cwd: string) returns (r: Result<()>)
      modifies host
      ensures Follows(host, old(host.next), old(host.log), NodeStartTrace(Cfg(), host.replies, old(host.next), cwd), r)
    {
      ghost var n0 := host.next;
      host.SpawnDetached(Invocation(radBin, ["node", "start"], cwd, hostEnv[ProfileVar := radHome]));
      ghost var f := AwaitNode(cwd);
      FirstRunningUnique(host.replies, n0, PollBudget, f);
      Regroup(old(host.log), [Detach(NodeLaunch(Cfg(), cwd))], PollPhase(Cfg(), cwd, f));
      r := Ok(());
    }
  }
}
