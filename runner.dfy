/** Running the script: each command is split into a program and its
    arguments and spawned; a download fetches a URL into a file. The outside
    world is a parameter: whether a program can be spawned (and with which
    exit status), whether a download succeeds, and what the git prompts
    return. Any failure of the script is a panic, after which nothing more
    runs. */
module Runner {
  import opened Sequences
  import opened Wrappers
  import opened CommandLine
  import opened Setup
  import opened PlanFacts
  import opened CommandFacts

  /** What the outside world sees the script do. */
  datatype Event = Spawned(invocation: Invocation) | Fetched(url: string, file: string)

  /** Why the script panicked: a blank command (`.next().unwrap()` on no
      tokens), a program that could not be spawned (`unwrap_or_else` on the
      status), a failed download (one of the `unwrap`s of `download_file`),
      or a failed prompt for the git name or email (`prompt().unwrap()`). */
  datatype Panic = EmptyCommand | SpawnFailed(program: string) | DownloadFailed(url: string) | PromptFailed

  /** The outside world, given what happened before: `spawn` is `None` when
      the program cannot be started and otherwise carries its exit status;
      `fetch` says whether a download into a file succeeds. */
  datatype Environment = Environment(
    spawn: (seq<Event>, Invocation) -> Option<int>,
    fetch: (seq<Event>, string, string) -> bool)

  /** The events so far, and the panic that stopped the script, if any. */
  datatype Trace = Trace(events: seq<Event>, panic: Option<Panic>)

  /** Whether a command can run: it has a program, and that program starts. */
  predicate Spawnable(env: Environment, history: seq<Event>, command: string) {
    match Tokenize(command)
    case None => false
    case Some(invocation) => env.spawn(history, invocation).Some?
  }

  /** `run_command_with_args` on a trace. */
  function Issue(env: Environment, t: Trace, command: string): Trace
  {
    if t.panic.Some? then t
    else match Tokenize(command)
      case None => Trace(t.events, Some(EmptyCommand))
      case Some(invocation) =>
        if env.spawn(t.events, invocation).Some? then Trace(t.events + [Spawned(invocation)], None)
        else Trace(t.events, Some(SpawnFailed(invocation.program)))
  }

  /** `download_file` on a trace. */
  function Fetch(env: Environment, t: Trace, url: string, file: string): Trace
  {
    if t.panic.Some? then t
    else if env.fetch(t.events, url, file) then Trace(t.events + [Fetched(url, file)], None)
    else Trace(t.events, Some(DownloadFailed(url)))
  }

  function Perform(env: Environment, t: Trace, step: Step): Trace {
    match step
    case Download(url, file) => Fetch(env, t, url, file)
    case _ => Issue(env, t, Text(step))
  }

  /** The steps run one after the other. */
  function Execute(env: Environment, steps: seq<Step>, t: Trace): Trace
    decreases |steps|
  {
    if steps == [] then t else Execute(env, steps[1..], Perform(env, t, steps[0]))
  }

  lemma {:induction false} ExecuteAppend(env: Environment, a: seq<Step>, b: seq<Step>, t: Trace)
    ensures Execute(env, a + b, t) == Execute(env, b, Execute(env, a, t))
    decreases |a|
  {
    if a == [] {
      assert a + b == b;
    } else {
      assert (a + b)[0] == a[0];
      assert (a + b)[1..] == a[1..] + b;
      ExecuteAppend(env, a[1..], b, Perform(env, t, a[0]));
    }
  }

  /** `run_command_with_args` panics exactly when the command is blank or its
      program cannot be started; otherwise it records one invocation, that of
      the command's first token with the others as arguments. Nothing runs
      after a panic. */
  lemma IssueMeaning(env: Environment, t: Trace, command: string)
    ensures var r := Issue(env, t, command);
      (t.panic.Some? ==> r == t)
      && (r.panic.None? <==> t.panic.None? && Spawnable(env, t.events, command))
      && (r.panic.None? ==> r.events == t.events + [Spawned(Tokenize(command).value)])
      && (r.panic.Some? ==> r.events == t.events)
      && (t.panic.None? && AllWhitespace(command) ==> r.panic == Some(EmptyCommand))
  {
  }

  /** `download_file` panics exactly when the download fails, and otherwise
      records it. */
  lemma FetchMeaning(env: Environment, t: Trace, url: string, file: string)
    ensures var r := Fetch(env, t, url, file);
      (t.panic.Some? ==> r == t)
      && (r.panic.None? <==> t.panic.None? && env.fetch(t.events, url, file))
      && (r.panic.None? ==> r.events == t.events + [Fetched(url, file)])
      && (r.panic.Some? ==> r.events == t.events)
  {
  }

  /** A step that does not panic records exactly one event; one that panics
      records none. */
  lemma PerformRecordsOne(env: Environment, t: Trace, step: Step)
    requires t.panic.None?
    ensures var r := Perform(env, t, step);
      (r.panic.None? ==> |r.events| == |t.events| + 1) && (r.panic.Some? ==> r.events == t.events)
      && t.events <= r.events
  {
  }

  /** Events are only ever appended, at most one per step, and exactly one per
      step when the run does not panic. */
  lemma {:induction false} ExecuteExtends(env: Environment, steps: seq<Step>, t: Trace)
    requires t.panic.None?
    ensures var r := Execute(env, steps, t);
      t.events <= r.events && |r.events| <= |t.events| + |steps|
      && (r.panic.None? ==> |r.events| == |t.events| + |steps|)
    decreases |steps|
  {
    if steps != [] {
      var t' := Perform(env, t, steps[0]);
      PerformRecordsOne(env, t, steps[0]);
      if t'.panic.Some? {
        ExecuteSticky(env, steps[1..], t');
      } else {
        ExecuteExtends(env, steps[1..], t');
      }
    }
  }

  /** Once the script has panicked, nothing more runs. */
  lemma {:induction false} ExecuteSticky(env: Environment, steps: seq<Step>, t: Trace)
    requires t.panic.Some?
    ensures Execute(env, steps, t) == t
    decreases |steps|
  {
    if steps != [] {
      ExecuteSticky(env, steps[1..], Perform(env, t, steps[0]));
    }
  }

  /** Once the script has panicked, nothing after runs. */
  lemma PanicStopsTheScript(env: Environment, a: seq<Step>, b: seq<Step>, t: Trace)
    requires Execute(env, a, t).panic.Some?
    ensures Execute(env, a + b, t) == Execute(env, a, t)
  {
    ExecuteAppend(env, a, b, t);
    ExecuteSticky(env, b, Execute(env, a, t));
  }

  /** A blank command makes `run_command_with_args` panic, with nothing run
      for it and nothing run after it. */
  lemma BlankCommandStops(env: Environment, t: Trace, command: string, rest: seq<Step>)
    requires AllWhitespace(command)
    requires t.panic.None?
    ensures Execute(env, rest, Issue(env, t, command)) == Trace(t.events, Some(EmptyCommand))
  {
    ExecuteSticky(env, rest, Issue(env, t, command));
  }

  /** A step that can succeed: a download, or a command that is not blank. */
  predicate Runnable(step: Step) {
    step.Download? || Tokenize(Text(step)).Some?
  }

  /** The event a step produces when it succeeds: the invocation of its
      command, or the download. */
  function Expected(step: Step): Event
    requires Runnable(step)
  {
    match step
    case Download(url, file) => Fetched(url, file)
    case _ => Spawned(Tokenize(Text(step)).value)
  }

  lemma PerformSucceeds(env: Environment, t: Trace, st: Step)
    requires forall h, inv :: env.spawn(h, inv).Some?
    requires forall h, url, file :: env.fetch(h, url, file)
    requires Runnable(st)
    requires t.panic.None?
    ensures Perform(env, t, st) == Trace(t.events + [Expected(st)], None)
  {
  }

  /** The events of a run in which every step succeeds, one per step. */
  function ExpectedEvents(steps: seq<Step>): seq<Event>
    requires forall i :: 0 <= i < |steps| ==> Runnable(steps[i])
    decreases |steps|
  {
    if steps == [] then [] else [Expected(steps[0])] + ExpectedEvents(steps[1..])
  }

  /** One expected event per step, each that of the step at the same place. */
  lemma {:induction false} ExpectedEventsOnePerStep(steps: seq<Step>)
    requires forall i :: 0 <= i < |steps| ==> Runnable(steps[i])
    ensures |ExpectedEvents(steps)| == |steps|
    ensures forall i :: 0 <= i < |steps| ==> ExpectedEvents(steps)[i] == Expected(steps[i])
    decreases |steps|
  {
    if steps != [] {
      ExpectedEventsOnePerStep(steps[1..]);
      assert forall i :: 1 <= i < |steps| ==> ExpectedEvents(steps)[i] == ExpectedEvents(steps[1..])[i - 1];
    }
  }

  /** When every program starts and every download succeeds and no command is
      blank, the script runs to its end and spawns and fetches exactly the
      expected things, in order. */
  lemma {:induction false} RunsToCompletion(env: Environment, steps: seq<Step>, t: Trace)
    requires forall h, inv :: env.spawn(h, inv).Some?
    requires forall h, url, file :: env.fetch(h, url, file)
    requires forall i :: 0 <= i < |steps| ==> Runnable(steps[i])
    requires t.panic.None?
    ensures Execute(env, steps, t) == Trace(t.events + ExpectedEvents(steps), None)
    decreases |steps|
  {
    if steps != [] {
      var t' := Perform(env, t, steps[0]);
      PerformSucceeds(env, t, steps[0]);
      RunsToCompletion(env, steps[1..], t');
      AppendAssociates(t.events, [Expected(steps[0])], ExpectedEvents(steps[1..]));
    }
  }

  /** Exit statuses do not matter: only whether a program could be started
      does. Two worlds that agree on that and on the downloads give the same
      run. */
  lemma {:induction false} ExitStatusIgnored(env1: Environment, env2: Environment, steps: seq<Step>, t: Trace)
    requires forall h, inv :: env1.spawn(h, inv).Some? == env2.spawn(h, inv).Some?
    requires forall h, url, file :: env1.fetch(h, url, file) == env2.fetch(h, url, file)
    ensures Execute(env1, steps, t) == Execute(env2, steps, t)
    decreases |steps|
  {
    if steps != [] {
      assert Perform(env1, t, steps[0]) == Perform(env2, t, steps[0]);
      ExitStatusIgnored(env1, env2, steps[1..], Perform(env1, t, steps[0]));
    }
  }

  /** `finish_install` in a world where every program starts and every
      download succeeds runs to its end: it spawns every command of the plan
      and fetches every download, in the plan's order, and nothing else. */
  lemma PlanRunsToCompletion(env: Environment, install: Installer, gitName: string, gitEmail: string, t: Trace)
    requires forall h, inv :: env.spawn(h, inv).Some?
    requires forall h, url, file :: env.fetch(h, url, file)
    requires t.panic.None?
    ensures var plan, r := Plan(install, gitName, gitEmail), Execute(env, Plan(install, gitName, gitEmail), t);
      r.panic.None? && |r.events| == |t.events| + |plan| && r.events[..|t.events|] == t.events
      && forall i :: 0 <= i < |plan| ==>
           ((plan[i].Download? || Tokenize(Text(plan[i])).Some?) && r.events[|t.events| + i] == Expected(plan[i]))
  {
    PlanCommandsTokenize(install, gitName, gitEmail);
    RunsToCompletion(env, Plan(install, gitName, gitEmail), t);
    ExpectedEventsOnePerStep(Plan(install, gitName, gitEmail));
  }

  lemma PlanCommandsTokenize(install: Installer, gitName: string, gitEmail: string)
    ensures forall st :: st in Plan(install, gitName, gitEmail) && !st.Download? ==> Tokenize(Text(st)).Some?
  {
    PlanStepsAreScriptSteps(install, gitName, gitEmail);
    forall st | st in Plan(install, gitName, gitEmail) && !st.Download?
      ensures Tokenize(Text(st)).Some?
    {
      ScriptCommandsTokenize(st, gitName, gitEmail);
    }
  }

  /** Running the install block is running each category's installs in
      turn. */
  lemma ExecuteInstallBlock(env: Environment, p: Packages, t: Trace)
    ensures Execute(env, InstallBlock(p), t)
      == Execute(env, InstallSteps(p.utility),
         Execute(env, InstallSteps(p.programmingLanguage),
         Execute(env, InstallSteps(p.font),
         Execute(env, InstallSteps(p.service),
         Execute(env, InstallSteps(p.software), t)))))
  {
    var a, b, c, d, e := InstallSteps(p.software), InstallSteps(p.service), InstallSteps(p.font),
      InstallSteps(p.programmingLanguage), InstallSteps(p.utility);
    ExecuteAppend(env, a + b + c + d, e, t);
    ExecuteAppend(env, a + b + c, d, t);
    ExecuteAppend(env, a + b, c, t);
    ExecuteAppend(env, a, b, t);
  }

  /** Running the steps after paru's removal is running each block in turn. */
  lemma ExecuteAfterParu(env: Environment, install: Installer, t: Trace)
    ensures var p, s := install.packages, install.settings;
      Execute(env, AfterParu(install), t)
      == Execute(env, if "tealdeer" in p.software then [Run(UpdateTldr)] else [],
         Execute(env, if s.installBedrock then BedrockSteps else [],
         Execute(env, if s.changeShell then [Run(ChangeShell)] else [],
         Execute(env, if s.installOmf then OmfSteps else [],
         Execute(env, if s.enableServices then EnableSteps(p.service) else [],
         Execute(env, if "rustup" !in p.programmingLanguage then [Run(RemoveRustup)] else [], t))))))
  {
    var p, s := install.packages, install.settings;
    var a := if "rustup" !in p.programmingLanguage then [Run(RemoveRustup)] else [];
    var b := if s.enableServices then EnableSteps(p.service) else [];
    var c := if s.installOmf then OmfSteps else [];
    var d := if s.changeShell then [Run(ChangeShell)] else [];
    var e := if s.installBedrock then BedrockSteps else [];
    var f := if "tealdeer" in p.software then [Run(UpdateTldr)] else [];
    assert AfterParu(install) == a + b + c + d + e + f;
    ExecuteAppend(env, a + b + c + d + e, f, t);
    ExecuteAppend(env, a + b + c + d, e, t);
    ExecuteAppend(env, a + b + c, d, t);
    ExecuteAppend(env, a + b, c, t);
    ExecuteAppend(env, a, b, t);
  }

  /** Running the plan is running the head, the git block, paru's removal and
      the rest in turn. */
  lemma ExecutePlan(env: Environment, install: Installer, gitName: string, gitEmail: string, t: Trace)
    ensures var s := install.settings;
      Execute(env, Plan(install, gitName, gitEmail), t)
      == Execute(env, AfterParu(install),
         Execute(env, if !s.installParu then [Run(RemoveParu)] else [],
         Execute(env, if s.setGitConfig then GitSteps(gitName, gitEmail) else [],
         Execute(env, [Run(Upgrade)] + InstallBlock(install.packages), t))))
  {
    var s := install.settings;
    var head := [Run(Upgrade)] + InstallBlock(install.packages);
    var git := if s.setGitConfig then GitSteps(gitName, gitEmail) else [];
    var paru := if !s.installParu then [Run(RemoveParu)] else [];
    ExecuteAppend(env, head, AfterInstalls(install, gitName, gitEmail), t);
    ExecuteAppend(env, git, AfterGit(install), Execute(env, head, t));
    ExecuteAppend(env, paru, AfterParu(install), Execute(env, git, Execute(env, head, t)));
  }

  /** A panic raised by the script itself rather than by a command or a
      download. A script that has already panicked is not running, so the
      first panic stays. */
  function Halt(t: Trace, reason: Panic): Trace {
    if t.panic.Some? then t else Trace(t.events, Some(reason))
  }

  /** What a text prompt returned: the text typed in, or the empty string for
      a prompt that failed or was never shown. */
  function Entered(reply: Option<string>): string {
    match reply
    case Some(text) => text
    case None => ""
  }

  /** `finish_install`, given what the git name and email prompts return
      (`None` for a prompt that fails). When `set_git_config` is on and a
      prompt fails, its `unwrap` panics after the upgrade and the installs,
      and nothing after them runs. Otherwise the plan runs. */
  function FinishInstallRun(env: Environment, install: Installer, gitName: Option<string>, gitEmail: Option<string>, t: Trace): Trace {
    if install.settings.setGitConfig && (gitName.None? || gitEmail.None?) then
      Halt(Execute(env, [Run(Upgrade)] + InstallBlock(install.packages), t), PromptFailed)
    else Execute(env, Plan(install, Entered(gitName), Entered(gitEmail)), t)
  }

  /** The commands of the upgrade and the install block are never blank. */
  lemma HeadRunnable(p: Packages)
    ensures forall i :: 0 <= i < |[Run(Upgrade)] + InstallBlock(p)| ==> Runnable(([Run(Upgrade)] + InstallBlock(p))[i])
  {
    var head := [Run(Upgrade)] + InstallBlock(p);
    InstallBlockInstallsAll(p);
    UpgradeTokens();
    forall i | 0 <= i < |head|
      ensures Runnable(head[i])
    {
      if i > 0 {
        InstallCommandTokens(AllPackages(p)[i - 1]);
      }
    }
  }

  /** When `set_git_config` is on and a git prompt fails in a world where
      every program starts, the script records the upgrade and one install
      per selected package, exactly as the full plan would begin, then stops
      with the prompt's panic: no git setting, no removal of paru or rustup,
      no enable and nothing after runs. */
  lemma PromptFailureStopsAfterInstalls(env: Environment, install: Installer, gitName: Option<string>, gitEmail: Option<string>,
                                        name: string, email: string, t: Trace)
    requires forall h, inv :: env.spawn(h, inv).Some?
    requires forall h, url, file :: env.fetch(h, url, file)
    requires t.panic.None?
    requires install.settings.setGitConfig && (gitName.None? || gitEmail.None?)
    ensures var r, full := FinishInstallRun(env, install, gitName, gitEmail, t), Execute(env, Plan(install, name, email), t);
      r.panic == Some(PromptFailed) && full.panic.None?
      && r.events <= full.events && |r.events| == |t.events| + 1 + |AllPackages(install.packages)|
  {
    var head := [Run(Upgrade)] + InstallBlock(install.packages);
    var h := Execute(env, head, t);
    HeadRunnable(install.packages);
    RunsToCompletion(env, head, t);
    ExpectedEventsOnePerStep(head);
    InstallBlockInstallsAll(install.packages);
    PlanRunsToCompletion(env, install, name, email, t);
    ExecuteAppend(env, head, AfterInstalls(install, name, email), t);
    ExecuteExtends(env, AfterInstalls(install, name, email), h);
  }

  /** The git answers matter only when `set_git_config` is on: otherwise the
      prompts are not shown and the run is the same whatever they would
      return. */
  lemma GitAnswersUnusedWhenNotAsked(env: Environment, install: Installer,
                                     name1: Option<string>, email1: Option<string>,
                                     name2: Option<string>, email2: Option<string>, t: Trace)
    requires !install.settings.setGitConfig
    ensures FinishInstallRun(env, install, name1, email1, t) == FinishInstallRun(env, install, name2, email2, t)
  {
    assert AfterInstalls(install, Entered(name1), Entered(email1)) == AfterGit(install);
    assert AfterInstalls(install, Entered(name2), Entered(email2)) == AfterGit(install);
  }

  lemma ExecutePair(env: Environment, x: Step, y: Step, t: Trace)
    ensures Execute(env, [x, y], t) == Perform(env, Perform(env, t, x), y)
  {
    assert [x, y][1..] == [y];
    ExecuteSingle(env, y, Perform(env, t, x));
  }

  lemma ExecuteTriple(env: Environment, x: Step, y: Step, z: Step, t: Trace)
    ensures Execute(env, [x, y, z], t) == Perform(env, Perform(env, Perform(env, t, x), y), z)
  {
    assert [x, y, z][1..] == [y, z];
    ExecutePair(env, y, z, Perform(env, t, x));
  }

  lemma ExecuteSingle(env: Environment, st: Step, t: Trace)
    ensures Execute(env, [st], t) == Perform(env, t, st)
  {
    assert [st][1..] == [];
  }

  lemma InstallStepsSnoc(packages: seq<string>, i: nat)
    requires i < |packages|
    ensures InstallSteps(packages[..i + 1]) == InstallSteps(packages[..i]) + [Install(packages[i])]
  {
    assert packages[..i + 1] == packages[..i] + [packages[i]];
    InstallStepsAppend(packages[..i], [packages[i]]);
  }

  lemma EnableStepsSnoc(services: seq<string>, i: nat)
    requires i < |services|
    ensures EnableSteps(services[..i + 1]) == EnableSteps(services[..i]) + EnableSteps([services[i]])
  {
    assert services[..i + 1] == services[..i] + [services[i]];
    EnableStepsAppend(services[..i], [services[i]]);
  }

  /** The two literal enable commands of `run_enable_services` are the enable
      commands of their units. */
  lemma BluetoothCommand()
    ensures "sudo systemctl enable --now bluetooth.service" == Text(Enable("bluetooth.service"))
  {
  }

  lemma CupsCommand()
    ensures "sudo systemctl enable --now cups.service" == Text(Enable("cups.service"))
  {
  }

  /** The shell the script drives: what it has run so far, and whether it
      has panicked. Every method is a no-op after a panic, since a panic in
      the source unwinds out of `main` and nothing more runs. */
  class Shell {
    const env: Environment
    var events: seq<Event>
    var panic: Option<Panic>

    function State(): Trace
      reads this
    {
      Trace(events, panic)
    }

    constructor(env: Environment)
      ensures this.env == env && State() == Trace([], None)
    {
      this.env := env;
      events := [];
      panic := None;
    }

    /** `run_command_with_args`: the first whitespace-separated token is the
        program, the others its arguments; a blank command panics, a program
        that cannot start panics, and the exit status is not looked at. */
    method RunCommandWithArgs(command: string)
      modifies this
      ensures State() == Issue(env, old(State()), command)
    {
      if panic.None? {
        var tokens := Tokenize(command);
        if tokens.None? {
          panic := Some(EmptyCommand);
        } else {
          var invocation := tokens.value;
          var status := env.spawn(events, invocation);
          if status.None? {
            panic := Some(SpawnFailed(invocation.program));
          } else {
            events := events + [Spawned(invocation)];
          }
        }
      }
    }

    /** `download_file`: fetch `url` into `file`, panicking on any failure. */
    method DownloadFile(url: string, file: string)
      modifies this
      ensures State() == Fetch(env, old(State()), url, file)
    {
      if panic.None? {
        if env.fetch(events, url, file) {
          events := events + [Fetched(url, file)];
        } else {
          panic := Some(DownloadFailed(url));
        }
      }
    }

    /** `install_packages`: one `paru -S <package> --noconfirm` per package,
        in order. */
    method InstallPackages(packages: seq<string>)
      modifies this
      ensures State() == Execute(env, InstallSteps(packages), old(State()))
    {
      for i := 0 to |packages|
        invariant State() == Execute(env, InstallSteps(packages[..i]), old(State()))
      {
        ghost var before := State();
        RunCommandWithArgs(InstallCommand(packages[i]));
        ExecuteSingle(env, Install(packages[i]), before);
        InstallStepsSnoc(packages, i);
        ExecuteAppend(env, InstallSteps(packages[..i]), [Install(packages[i])], old(State()));
      }
      assert packages[..|packages|] == packages;
    }

    /** `run_enable_services`: `bluez` enables `bluetooth.service`, `cups`
        enables `cups.service`, the four driver packages enable nothing, and
        any other service enables the unit of its own name. */
    method RunEnableServices(services: seq<string>)
      modifies this
      ensures State() == Execute(env, EnableSteps(services), old(State()))
    {
      for i := 0 to |services|
        invariant State() == Execute(env, EnableSteps(services[..i]), old(State()))
      {
        var service := services[i];
        ghost var before := State();
        EnableOne(service);
        if service == "bluez" {
          RunCommandWithArgs("sudo systemctl enable --now bluetooth.service");
          BluetoothCommand();
          ExecuteSingle(env, Enable("bluetooth.service"), before);
        } else if service == "cups" {
          RunCommandWithArgs("sudo systemctl enable --now cups.service");
          CupsCommand();
          ExecuteSingle(env, Enable("cups.service"), before);
        } else if service in NoUnit {
        } else {
          RunCommandWithArgs(EnableCommand(service));
          ExecuteSingle(env, Enable(service), before);
        }
        EnableStepsSnoc(services, i);
        ExecuteAppend(env, EnableSteps(services[..i]), EnableSteps([service]), old(State()));
      }
      assert services[..|services|] == services;
    }

    /** `finish_install`: the plan of `Setup.Plan`, run step by step. The git
        name and email are what the two prompts return. The methods below run
        contiguous parts of the function: the upgrade and the installs, the
        git block, paru's removal and the steps after it. */
    method FinishInstall(install: Installer, gitName: Option<string>, gitEmail: Option<string>)
      modifies this
      ensures State() == FinishInstallRun(env, install, gitName, gitEmail, old(State()))
    {
      var s := install.settings;
      ghost var t0 := State();
      UpgradeAndInstall(install.packages);
      if s.setGitConfig {
        if gitName.None? || gitEmail.None? {
          Abort(PromptFailed);
          return;
        }
        SetGitConfig(gitName.value, gitEmail.value);
      }
      if !s.installParu {
        UninstallParu();
      }
      RunAfterParu(install);
      ExecutePlan(env, install, Entered(gitName), Entered(gitEmail), t0);
    }

    /** A panic of the script's own, such as an `unwrap` on a failed prompt. */
    method Abort(reason: Panic)
      modifies this
      ensures State() == Halt(old(State()), reason)
    {
      if panic.None? {
        panic := Some(reason);
      }
    }

    /** One of the script's fixed commands, passed to `run_command_with_args`. */
    method RunFixedCommand(c: Command)
      modifies this
      ensures State() == Perform(env, old(State()), Run(c))
    {
      RunCommandWithArgs(CommandText(c));
    }

    /** `paru -Rns paru`, when paru is not to be kept. */
    method UninstallParu()
      modifies this
      ensures State() == Execute(env, [Run(RemoveParu)], old(State()))
    {
      ghost var t0 := State();
      RunFixedCommand(RemoveParu);
      ExecuteSingle(env, Run(RemoveParu), t0);
    }

    /** The git block of `finish_install`: the user's name and email, each
        in double quotes. */
    method SetGitConfig(gitName: string, gitEmail: string)
      modifies this
      ensures State() == Execute(env, GitSteps(gitName, gitEmail), old(State()))
    {
      ghost var t0 := State();
      RunCommandWithArgs(GitConfigCommand("user.name", gitName));
      RunCommandWithArgs(GitConfigCommand("user.email", gitEmail));
      ExecutePair(env, GitConfig("user.name", gitName), GitConfig("user.email", gitEmail), t0);
    }

    /** The opening of `finish_install`: `paru -Syu`, then the installs of
        every category in order. */
    method UpgradeAndInstall(p: Packages)
      modifies this
      ensures State() == Execute(env, [Run(Upgrade)] + InstallBlock(p), old(State()))
    {
      ghost var t0 := State();
      RunFixedCommand(Upgrade);
      ExecuteSingle(env, Run(Upgrade), t0);
      InstallEveryCategory(p);
      ExecuteAppend(env, [Run(Upgrade)], InstallBlock(p), t0);
    }

    /** The five calls of `install_packages`, one per category. */
    method InstallEveryCategory(p: Packages)
      modifies this
      ensures State() == Execute(env, InstallBlock(p), old(State()))
    {
      ghost var t0 := State();
      InstallPackages(p.software);
      InstallPackages(p.service);
      InstallPackages(p.font);
      InstallPackages(p.programmingLanguage);
      InstallPackages(p.utility);
      ExecuteInstallBlock(env, p, t0);
    }

    /** The rest of `finish_install`, after the removal of paru. */
    method RunAfterParu(install: Installer)
      modifies this
      ensures State() == Execute(env, AfterParu(install), old(State()))
    {
      ghost var t0 := State();
      RemoveRustupEnableServicesInstallOmf(install);
      ChangeShellInstallBedrockUpdateTldr(install);
      ExecuteAfterParu(env, install, t0);
    }

    /** The removal of rustup, the enabling of services and oh-my-fish. */
    method RemoveRustupEnableServicesInstallOmf(install: Installer)
      modifies this
      ensures var p, s := install.packages, install.settings;
        State()
        == Execute(env, if s.installOmf then OmfSteps else [],
           Execute(env, if s.enableServices then EnableSteps(p.service) else [],
           Execute(env, if "rustup" !in p.programmingLanguage then [Run(RemoveRustup)] else [], old(State()))))
    {
      var p, s := install.packages, install.settings;
      ghost var t0 := State();
      if "rustup" !in p.programmingLanguage {
        RunFixedCommand(RemoveRustup);
        ExecuteSingle(env, Run(RemoveRustup), t0);
      }
      if s.enableServices {
        RunEnableServices(p.service);
      }
      if s.installOmf {
        InstallOhMyFish();
      }
    }

    /** The change of login shell, the two empty branches (KDE theme and audio
        normalisation), Bedrock Linux and the tldr cache update. */
    method ChangeShellInstallBedrockUpdateTldr(install: Installer)
      modifies this
      ensures var p, s := install.packages, install.settings;
        State()
        == Execute(env, if "tealdeer" in p.software then [Run(UpdateTldr)] else [],
           Execute(env, if s.installBedrock then BedrockSteps else [],
           Execute(env, if s.changeShell then [Run(ChangeShell)] else [], old(State()))))
    {
      var p, s := install.packages, install.settings;
      ghost var t0 := State();
      if s.changeShell {
        RunFixedCommand(ChangeShell);
        ExecuteSingle(env, Run(ChangeShell), t0);
      }
      if s.installKdeTheme {
      }
      if s.normalizeAudio {
      }
      if s.installBedrock {
        InstallBedrockLinux();
      }
      ghost var t1 := State();
      if "tealdeer" in p.software {
        RunFixedCommand(UpdateTldr);
        ExecuteSingle(env, Run(UpdateTldr), t1);
      }
    }

    /** Downloads the oh-my-fish installer, runs it with fish and removes it. */
    method InstallOhMyFish()
      modifies this
      ensures State() == Execute(env, OmfSteps, old(State()))
    {
      ghost var t := State();
      DownloadFile(OmfUrl, OmfScript);
      RunFixedCommand(RunOmf);
      RunFixedCommand(RemoveOmf);
      ExecuteTriple(env, Download(OmfUrl, OmfScript), Run(RunOmf), Run(RemoveOmf), t);
    }

    /** Downloads the Bedrock Linux installer, runs it to hijack the system
        and removes it. */
    method InstallBedrockLinux()
      modifies this
      ensures State() == Execute(env, BedrockSteps, old(State()))
    {
      ghost var t := State();
      DownloadFile(BedrockUrl, BedrockScript);
      RunFixedCommand(RunBedrock);
      RunFixedCommand(RemoveBedrock);
      ExecuteTriple(env, Download(BedrockUrl, BedrockScript), Run(RunBedrock), Run(RemoveBedrock), t);
    }
  }
}
