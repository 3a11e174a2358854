# archinstall-post-install, modelled in Dafny

`archinstall-post-install` is a post-install script for Arch Linux. It asks
the user which packages to install and which optional steps to take. Then
`finish_install` runs shell commands one after another:

- a system upgrade with `paru`;
- one `paru -S` per selected package;
- the git identity, when asked for;
- removal of `paru` and `rustup` when they were not wanted;
- enabling systemd units for the selected services;
- Oh My Fish, a login-shell change and Bedrock Linux;
- a `tldr` cache update.

Every command goes through `run_command_with_args`. It splits the string on
whitespace, takes the first token as the program and the rest as its
arguments, and panics when the string is blank or the program cannot be
started.

This project models that core of `src/main.rs`:

- **`CommandLine`:** Rust's `split_whitespace` over Unicode whitespace, and
  the split of a command into an `Invocation` (program and arguments). A
  blank command is `None`, which is where the source panics.
- **`Setup`:** the `Packages`, `Settings` and `Installer` records and their
  defaults, and the mapping of a confirmation reply to a `bool`.
  - The command strings the script builds, and the mapping of services to
    systemd units.
  - `Setup.Plan`: `finish_install` as an ordered list of steps, for given
    answers and a given git name and email.
- **`PlanFacts`:** what the plan promises. It counts and orders the steps by
  kind: installs, enables, git settings, and the removals of paru and rustup.
  It also covers the tldr update.
- **`CommandFacts`:** what each command string tokenises to. This includes
  the double quotes around the git name and email, which are passed on
  literally.
- **`Runner`:** running the steps against an outside world given as a
  parameter. The world says whether a program can be spawned and with what
  exit status, and whether a download succeeds. What the git name and email
  prompts return is a parameter too.
  - `Runner.Shell` is a class whose methods follow the source's functions
    statement by statement. Each method's postcondition ties the new state
    to `Execute` of the corresponding part of the plan. `FinishInstall`
    therefore runs exactly `Setup.Plan`, unless a git prompt fails: then it
    stops with a panic after the installs.
  - A panic is a field that, once set, turns every later operation into a
    no-op, since the process is gone.

Only the *software* selection triggers `tldr --update`
(`src/main.rs:200`). With `tealdeer` chosen only as a utility, no update
runs. `PlanFacts.TealdeerAsUtilityPlan` states the plan for such a
selection.

## Model

| member | source | states |
|---|---|---|
| Setup.BoolAnswer | src/main.rs:61-67 | an error reply panics (`None`); the answer is `true` exactly for an explicit yes or an accepted default, which is yes (`with_default(true)`); a skip gives `false` |
| Setup.ServiceUnit | src/main.rs:81-86 | `bluez` maps to `bluetooth.service` and `cups` to `cups.service`; there is no unit exactly for the four driver packages; every other service maps to its own name |
| Setup.InstallCommand | src/main.rs:124 | no contract of its own: `CommandFacts.InstallCommandTokens` states what the command runs |
| Setup.EnableCommand | src/main.rs:85 | no contract of its own: `CommandFacts.EnableCommandTokens` states what the command runs, and `Runner.BluetoothCommand` and `Runner.CupsCommand` tie the two literal enable commands to it |
| Setup.GitConfigCommand | src/main.rs:160-161 | no contract of its own: `CommandFacts.GitConfigCommandTokens` and `CommandFacts.QuotedNameSplits` state what the command runs |
| Setup.CommandText | src/main.rs:148-201 | no contract of its own: the text of each fixed command, its program then its arguments; `CommandFacts.FixedCommandTokens` and the four lemmas after it state what each runs |
| Setup.InstallSteps | src/main.rs:122-126 | one install per package, as many as there are packages, the i-th installing the i-th package |
| Setup.EnableSteps | src/main.rs:79-89 | at most one enable per service; `PlanFacts.EnableStepsMembers`, `PlanFacts.EnableOne` and `PlanFacts.EnableStepsAppend` state which units are enabled and in what order |
| PlanFacts.EnableOne | src/main.rs:81-86 | one service gives the enable of its unit, or nothing for the four driver packages |
| PlanFacts.EnableStepsAppend | src/main.rs:80-88 | the services are handled one at a time in order: the steps for a list are those of its first part, then those of the rest |
| Setup.Plan | src/main.rs:147-203 | no contract of its own: the steps of `finish_install` in order; the `PlanFacts` lemmas below state its contents and order |
| PlanFacts.EnableStepsMembers | src/main.rs:79-89 | a unit is enabled exactly when some selected service maps to it |
| CommandLine.Words | src/main.rs:70-71 | every token is non-empty and free of whitespace, and there are no more tokens than characters |
| CommandLine.NoWordsIffAllWhitespace | src/main.rs:70 | a string has no tokens exactly when it is all whitespace |
| CommandLine.Tokenize | src/main.rs:69-72 | there is no invocation (the `unwrap` panics) exactly when the command is blank; otherwise the program and the arguments are all whitespace-free words |
| CommandFacts.TokenizeSpaced | src/main.rs:69-71 | a command that is a single word, a space and a rest runs that word with the tokens of the rest as its arguments |
| CommandLine.WordsSeparated | src/main.rs:70-71 | tokens never span whitespace: splitting `a`, a whitespace character, then `b` gives the tokens of `a` then those of `b` |
| CommandLine.WordsUnwords | src/main.rs:70-71 | joining words with single spaces and splitting again gives the same words back |
| CommandLine.TokenizeUnwords | src/main.rs:69-72 | a command written as a program and its arguments separated by spaces splits back into that program and those arguments |
| CommandFacts.InstallCommandTokens | src/main.rs:124 | `paru -S <package> --noconfirm` runs `paru` with `-S`, the tokens of the package name and `--noconfirm` |
| CommandFacts.EnableCommandTokens | src/main.rs:85 | `sudo systemctl enable --now <unit>` runs `sudo` with `systemctl enable --now` and the tokens of the unit |
| CommandFacts.GitConfigCommandTokens | src/main.rs:160-161 | `git config --global <key> "<value>"` runs `git` with `config --global`, the key and the tokens of the quoted value, quotes included |
| CommandFacts.QuotedNameSplits | src/main.rs:160 | a git name of two words reaches git as two arguments, the first starting and the second ending with a literal double quote |
| CommandFacts.UpgradeTokens | src/main.rs:148 | `paru -Syu` runs `paru` with the single argument `-Syu` |
| CommandFacts.RemoveParuTokens | src/main.rs:165 | `paru -Rns paru` runs `paru` with `-Rns` and `paru` |
| CommandFacts.RemoveRustupTokens | src/main.rs:169 | `paru -Rns rustup` runs `paru` with `-Rns` and `rustup` |
| CommandFacts.UpdateTldrTokens | src/main.rs:201 | `tldr --update` runs `tldr` with the single argument `--update` |
| CommandFacts.FixedCommandTokens | src/main.rs:148-201 | every fixed command runs its first word with the tokens of the rest |
| CommandFacts.FixedCommandsNotBlank | src/main.rs:148-201 | no fixed command of `finish_install` is blank |
| CommandFacts.ScriptCommandsTokenize | src/main.rs:69-70 | no command the script builds (install, enable, git setting, fixed command) makes the tokeniser panic |
| PlanFacts.InstallBlockInstallsAll | src/main.rs:150-154 | the five `install_packages` calls install every selected package, category by category, in selection order |
| PlanFacts.PlanInstallsFirst | src/main.rs:148-154 | the plan opens with `paru -Syu`, then installs every selected package in order; a step is an install exactly when it lies in that block |
| PlanFacts.PlanConfiguresGitOnlyWhenAsked | src/main.rs:156-162 | the git steps are the `user.name` then the `user.email` setting when `set_git_config` is on, and there are none otherwise |
| PlanFacts.PlanRemovesParuUnlessKept | src/main.rs:164-166 | `paru -Rns paru` occurs once exactly when `install_paru` is off, and never otherwise |
| PlanFacts.PlanRemovesParuAfterInstallsAndGit | src/main.rs:147-166 | `paru -Rns paru` comes after every install and every git setting |
| PlanFacts.PlanRemovesRustupUnlessSelected | src/main.rs:168-170 | `paru -Rns rustup` occurs once exactly when `rustup` is not a selected programming language, and never otherwise |
| PlanFacts.PlanEnablesServicesOnlyWhenAsked | src/main.rs:172-174 | the enable steps are those of `run_enable_services` on the selected services when `enable_services` is on, and there are none otherwise |
| PlanFacts.PlanInstallsOhMyFishOnlyWhenAsked | src/main.rs:176-180 | the download of the Oh My Fish installer, `fish install` and `rm install` are in the plan exactly when `install_omf` is on |
| PlanFacts.PlanChangesShellOnlyWhenAsked | src/main.rs:182-184 | `chsh -s /usr/bin/fish` is in the plan exactly when `change_shell` is on |
| PlanFacts.PlanInstallsBedrockOnlyWhenAsked | src/main.rs:194-198 | the download of the Bedrock Linux installer, running it with `--hijack` and its removal are in the plan exactly when `install_bedrock` is on |
| PlanFacts.AfterParuSelect | src/main.rs:168-202 | after paru's removal, the rustup removal, the enables and the tldr update each come only from their own conditional block |
| PlanFacts.PlanUpdatesTldrOnlyForTealdeer | src/main.rs:200-202 | `tldr --update` occurs once exactly when `tealdeer` is among the selected software, and never otherwise |
| PlanFacts.PlanEndsWithTldrUpdate | src/main.rs:200-203 | the last step is `tldr --update` exactly when `tealdeer` is among the selected software |
| PlanFacts.KdeThemeAndAudioAddNothing | src/main.rs:186-192 | the KDE-theme and audio-normalisation answers do not change the plan |
| PlanFacts.DefaultPlan | src/main.rs:147-170 | with the default installer the script upgrades, then removes paru and rustup, and does nothing else |
| PlanFacts.TealdeerAsUtilityPlan | src/main.rs:147-203 | bluez as a service, rustup as a language, tealdeer as a utility, paru kept and services enabled: upgrade, three installs, enable `bluetooth.service`, and nothing more |
| PlanFacts.PlanStepsAreScriptSteps | src/main.rs:147-203 | every step of the plan is an install, an enable, a download, one of the two git settings, or a fixed command |
| Runner.Issue | src/main.rs:69-73 | no contract of its own: `run_command_with_args` on a trace; `Runner.IssueMeaning` states its meaning |
| Runner.Fetch | src/main.rs:128-145 | no contract of its own: `download_file` on a trace; `Runner.FetchMeaning` states its meaning |
| Runner.Execute | src/main.rs:147-203 | no contract of its own: the steps run one after the other; `Runner.ExecuteExtends`, `Runner.ExecuteSticky` and `Runner.PanicStopsTheScript` state its properties |
| Runner.FinishInstallRun | src/main.rs:147-203 | no contract of its own: `finish_install` given what the git prompts return; `Runner.PromptFailureStopsAfterInstalls` and `Runner.GitAnswersUnusedWhenNotAsked` state its properties |
| Runner.PromptFailureStopsAfterInstalls | src/main.rs:156-158 | with `set_git_config` on, a failed git prompt in a world where every program starts ends the run with the prompt panic, after the upgrade and one install per package, exactly as the full plan begins, and nothing after |
| Runner.GitAnswersUnusedWhenNotAsked | src/main.rs:156-162 | with `set_git_config` off, what the git prompts would return does not change the run |
| Runner.IssueMeaning | src/main.rs:69-73 | `run_command_with_args` panics exactly when the command is blank or its program cannot be started; otherwise it records one invocation of the first token with the other tokens; a blank command is the empty-command panic |
| Runner.FetchMeaning | src/main.rs:128-145 | `download_file` panics exactly when the download fails, and otherwise records the download |
| Runner.PerformRecordsOne | src/main.rs:69-73 | a step that does not panic records exactly one event, and one that panics records none |
| Runner.ExecuteExtends | src/main.rs:147-203 | a run only appends events, at most one per step, and exactly one per step when it does not panic |
| Runner.ExecuteSticky | src/main.rs:72 | once the script has panicked, no later step changes anything |
| Runner.PanicStopsTheScript | src/main.rs:147-203 | when a prefix of the plan panics, whatever follows adds nothing |
| Runner.BlankCommandStops | src/main.rs:70 | a blank command panics with the empty-command panic and nothing after it runs |
| Runner.ExitStatusIgnored | src/main.rs:72 | two worlds that agree on which programs start and which downloads succeed give the same run, whatever the exit statuses |
| Runner.RunsToCompletion | src/main.rs:69-73 | when every program starts, every download succeeds and no command is blank, a run does not panic and records each step's invocation or download, in order |
| Runner.PlanRunsToCompletion | src/main.rs:147-203 | in such a world `finish_install` does not panic and records one event per plan step: the i-th step's invocation or download, and nothing else |
| Runner.BluetoothCommand | src/main.rs:82 | the literal bluez command is the enable command of `bluetooth.service` |
| Runner.CupsCommand | src/main.rs:83 | the literal cups command is the enable command of `cups.service` |
| Runner.Shell.RunCommandWithArgs | src/main.rs:69-73 | the new state is that of `Issue`: nothing after a panic, the empty-command panic for a blank command, the spawn panic for a program that cannot start, one recorded invocation otherwise |
| Runner.Shell.DownloadFile | src/main.rs:128-145 | the new state is that of `Fetch`: nothing after a panic, a panic on a failed download, one recorded download otherwise |
| Runner.Shell.InstallPackages | src/main.rs:122-126 | the loop runs the install of each package in order: the new state is `Execute` of `InstallSteps` |
| Runner.Shell.RunEnableServices | src/main.rs:79-89 | the loop enables each service's unit in order, skipping the four driver packages: the new state is `Execute` of `EnableSteps` |
| Runner.Shell.FinishInstall | src/main.rs:147-203 | the new state is that of `FinishInstallRun`: with `set_git_config` on and a failed git prompt, the upgrade and the installs, then the prompt panic; otherwise `Execute` of `Setup.Plan` for the answers and the typed name and email |
| Runner.Shell.Abort | src/main.rs:157-158 | the `unwrap` of a failed prompt: the new state is the old one with that panic, unless the script had already panicked |
| Runner.Shell.UpgradeAndInstall | src/main.rs:148-154 | the new state is `Execute` of the upgrade followed by the install block |
| Runner.Shell.InstallEveryCategory | src/main.rs:150-154 | the new state is `Execute` of the install block, category by category |
| Runner.Shell.SetGitConfig | src/main.rs:160-161 | the new state is `Execute` of the two git settings, name then email |
| Runner.Shell.RunFixedCommand | src/main.rs:148-201 | each fixed command of `finish_install` leaves the state that `Perform` gives for that step: nothing after a panic, otherwise its one invocation or the panic it causes |
| Runner.Shell.UninstallParu | src/main.rs:164-166 | the new state is `Execute` of the removal of paru |
| Runner.Shell.RunAfterParu | src/main.rs:168-202 | the new state is `Execute` of everything after paru's removal |
| Runner.Shell.RemoveRustupEnableServicesInstallOmf | src/main.rs:168-180 | the new state is `Execute` of the rustup removal, the enables and Oh My Fish, each only when its condition holds |
| Runner.Shell.ChangeShellInstallBedrockUpdateTldr | src/main.rs:182-202 | the new state is `Execute` of the shell change, Bedrock Linux and the tldr update, each only when its condition holds; the KDE-theme and audio branches do nothing |
| Runner.Shell.InstallOhMyFish | src/main.rs:177-179 | the new state is `Execute` of the download of the installer, `fish install` and `rm install` |
| Runner.Shell.InstallBedrockLinux | src/main.rs:195-197 | the new state is `Execute` of the download of the installer, running it with `--hijack`, and its removal |

## Left out

- The prompts (`get_list_from_packages`, `ask_for_user_input` and the two `Text` prompts for the git name and email, src/main.rs:52-59, 103-120, 157-158) are interactive input. The selections and answers are parameters of the plan. What the two git prompts return is a parameter of `FinishInstall`, with `None` for a prompt that fails. Of the other prompts, only the mapping of a confirmation reply to a `bool` is modelled; a failed `MultiSelect` prompt panics before `finish_install` and is not modelled.
- `download_file` (src/main.rs:128-145) is a network transfer and a file write. The outside world decides whether it succeeds. The bytes and the file contents are not modelled.
- Spawning a process and waiting for it are foreign calls. The outside world says whether a program starts and with which exit status; the source ignores the status.
- `install_rust_and_paru` (src/main.rs:91-101) is outside the modelled core. `main` runs it before the prompts: a fixed bootstrap of rustup and paru. Its `set_current_dir` calls change the working directory, which is not modelled.
- `run_command` (src/main.rs:75-77) is never called.
- `main` (src/main.rs:205-217) prints a banner and parses the package catalog, `packages.json`, which is embedded at compile time. Neither the JSON parsing nor the catalog file is part of this model. The catalog only supplies the options the prompts offer.
- `Runner.Shell.FinishInstall`: the body of `finish_install` is split over helper methods (`UpgradeAndInstall`, `SetGitConfig`, `UninstallParu`, `RunAfterParu` and the methods below them; `RunFixedCommand` passes each fixed command to `RunCommandWithArgs`). Each helper runs a contiguous part of the source in the source's order. The two git prompts (src/main.rs:157-158) stay in `FinishInstall`: a failed one is `Abort(PromptFailed)`, after which the method returns.
- Exact argument lists are stated in lemmas of their own only for the upgrade, the two removals and the tldr update. For the shell change, Oh My Fish and Bedrock Linux, `CommandFacts.FixedCommandTokens` states that the program is the first word and that the arguments are the tokens of `Setup.Arguments`, whose literals are those of the source.
