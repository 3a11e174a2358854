/** What the plan of `finish_install` promises: which steps it contains, how
    many times, and in what order. */
module PlanFacts {
  import opened Wrappers
  import opened Sequences
  import opened Setup

  /** The kinds of step whose number and order the plan pins down. */
  datatype Kind =
    | InstallKind | EnableKind | GitKind
    | ParuRemovalKind | RustupRemovalKind | TldrUpdateKind
    | OtherKind

  function KindOf(step: Step): Kind {
    match step
    case Install(_) => InstallKind
    case Enable(_) => EnableKind
    case GitConfig(_, _) => GitKind
    case Download(_, _) => OtherKind
    case Run(RemoveParu) => ParuRemovalKind
    case Run(RemoveRustup) => RustupRemovalKind
    case Run(UpdateTldr) => TldrUpdateKind
    case Run(_) => OtherKind
  }

  /** The steps of kind `k`, in their order. */
  function Select(steps: seq<Step>, k: Kind): (r: seq<Step>)
    ensures |r| <= |steps|
  {
    if steps == [] then []
    else (if KindOf(steps[0]) == k then [steps[0]] else []) + Select(steps[1..], k)
  }

  lemma {:induction false} SelectAppend(a: seq<Step>, b: seq<Step>, k: Kind)
    ensures Select(a + b, k) == Select(a, k) + Select(b, k)
    decreases |a|
  {
    if a == [] {
      assert a + b == b;
    } else {
      assert (a + b)[0] == a[0];
      assert (a + b)[1..] == a[1..] + b;
      SelectAppend(a[1..], b, k);
      AppendAssociates(if KindOf(a[0]) == k then [a[0]] else [], Select(a[1..], k), Select(b, k));
    }
  }

  /** Selecting from a block whose steps all have one kind `k0`. */
  lemma {:induction false} SelectFromBlock(steps: seq<Step>, k0: Kind, k: Kind)
    requires forall st :: st in steps ==> KindOf(st) == k0
    ensures Select(steps, k) == if k == k0 then steps else []
    decreases |steps|
  {
    if steps != [] {
      assert steps[0] in steps;
      assert forall st :: st in steps[1..] ==> st in steps;
      SelectFromBlock(steps[1..], k0, k);
    }
  }

  /** A step of kind `k` that occurs in `steps` is selected. */
  lemma {:induction false} SelectFinds(steps: seq<Step>, i: nat, k: Kind)
    requires i < |steps| && KindOf(steps[i]) == k
    ensures Select(steps, k) != []
    decreases |steps|
  {
    if i > 0 {
      SelectFinds(steps[1..], i - 1, k);
    }
  }

  /** The three fixed commands that have a kind of their own are the only
      steps of that kind. */
  lemma FixedKindsAreSingletons(st: Step)
    ensures KindOf(st) == ParuRemovalKind <==> st == Run(RemoveParu)
    ensures KindOf(st) == RustupRemovalKind <==> st == Run(RemoveRustup)
    ensures KindOf(st) == TldrUpdateKind <==> st == Run(UpdateTldr)
  {
  }

  lemma InstallStepsKind(packages: seq<string>)
    ensures forall st :: st in InstallSteps(packages) ==> KindOf(st) == InstallKind
  {
  }

  lemma {:induction false} EnableStepsKind(services: seq<string>)
    ensures forall st :: st in EnableSteps(services) ==> KindOf(st) == EnableKind
    decreases |services|
  {
    if services != [] {
      EnableStepsKind(services[1..]);
    }
  }

  /** `run_enable_services` enables a unit exactly when some selected service
      maps to it. */
  lemma {:induction false} EnableStepsMembers(services: seq<string>, unit: string)
    ensures Enable(unit) in EnableSteps(services)
      <==> exists i :: 0 <= i < |services| && ServiceUnit(services[i]) == Some(unit)
    decreases |services|
  {
    if services != [] {
      var rest := services[1..];
      EnableStepsMembers(rest, unit);
      if exists i :: 0 <= i < |rest| && ServiceUnit(rest[i]) == Some(unit) {
        var i :| 0 <= i < |rest| && ServiceUnit(rest[i]) == Some(unit);
        assert services[i + 1] == rest[i];
      }
      if exists i :: 0 <= i < |services| && ServiceUnit(services[i]) == Some(unit) {
        var i :| 0 <= i < |services| && ServiceUnit(services[i]) == Some(unit);
        if i > 0 {
          assert rest[i - 1] == services[i];
        }
      }
    }
  }

  /** A single service gives the enable of its unit, or nothing for the
      four driver packages. */
  lemma EnableOne(service: string)
    ensures EnableSteps([service]) == match ServiceUnit(service)
      case Some(unit) => [Enable(unit)]
      case None => []
  {
    assert [service][1..] == [];
  }

  /** `run_enable_services` handles the services one at a time, in order:
      the steps for a list are those of its first part, then those of the
      rest. */
  lemma {:induction false} EnableStepsAppend(a: seq<string>, b: seq<string>)
    ensures EnableSteps(a + b) == EnableSteps(a) + EnableSteps(b)
    decreases |a|
  {
    if a == [] {
      assert a + b == b;
    } else {
      assert (a + b)[0] == a[0];
      assert (a + b)[1..] == a[1..] + b;
      EnableStepsAppend(a[1..], b);
    }
  }

  lemma InstallStepsAppend(a: seq<string>, b: seq<string>)
    ensures InstallSteps(a + b) == InstallSteps(a) + InstallSteps(b)
  {
    assert |InstallSteps(a + b)| == |InstallSteps(a) + InstallSteps(b)|;
    forall i | 0 <= i < |a + b|
      ensures InstallSteps(a + b)[i] == (InstallSteps(a) + InstallSteps(b))[i]
    {
    }
  }

  /** The install block installs every selected package, category by category. */
  lemma InstallBlockInstallsAll(p: Packages)
    ensures InstallBlock(p) == InstallSteps(AllPackages(p))
  {
    InstallStepsAppend(p.software, p.service);
    InstallStepsAppend(p.software + p.service, p.font);
    InstallStepsAppend(p.software + p.service + p.font, p.programmingLanguage);
    InstallStepsAppend(p.software + p.service + p.font + p.programmingLanguage, p.utility);
  }

  /** The upgrade and the install block: `paru -Syu`, then installs only. */
  lemma HeadKinds(p: Packages)
    ensures forall st :: st in [Run(Upgrade)] + InstallBlock(p) ==> KindOf(st) == OtherKind || KindOf(st) == InstallKind
  {
    InstallBlockInstallsAll(p);
  }

  /** Six blocks shaped like the steps after paru's removal: a rustup
      removal block, an enable block, three blocks of other steps and a tldr
      update block. */
  predicate AfterParuShape(a: seq<Step>, b: seq<Step>, c: seq<Step>, d: seq<Step>, e: seq<Step>, f: seq<Step>) {
    (forall st :: st in a ==> KindOf(st) == RustupRemovalKind)
    && (forall st :: st in b ==> KindOf(st) == EnableKind)
    && (forall st :: st in c ==> KindOf(st) == OtherKind)
    && (forall st :: st in d ==> KindOf(st) == OtherKind)
    && (forall st :: st in e ==> KindOf(st) == OtherKind)
    && (forall st :: st in f ==> KindOf(st) == TldrUpdateKind)
  }

  lemma KindsOfAfterParuShape(a: seq<Step>, b: seq<Step>, c: seq<Step>, d: seq<Step>, e: seq<Step>, f: seq<Step>)
    requires AfterParuShape(a, b, c, d, e, f)
    ensures forall st :: st in a + b + c + d + e + f ==> KindOf(st) != InstallKind && KindOf(st) != GitKind
  {
    forall st | st in a + b + c + d + e + f
      ensures KindOf(st) != InstallKind && KindOf(st) != GitKind
    {
      assert st in a || st in b || st in c || st in d || st in e || st in f;
    }
  }

  lemma SelectFromFirstThree(a: seq<Step>, b: seq<Step>, c: seq<Step>, d: seq<Step>, e: seq<Step>, f: seq<Step>, k: Kind)
    requires AfterParuShape(a, b, c, d, e, f)
    ensures Select(a, k) == (if k == RustupRemovalKind then a else [])
    ensures Select(b, k) == (if k == EnableKind then b else [])
    ensures Select(c, k) == (if k == OtherKind then c else [])
  {
    SelectFromBlock(a, RustupRemovalKind, k);
    SelectFromBlock(b, EnableKind, k);
    SelectFromBlock(c, OtherKind, k);
  }

  lemma SelectFromLastThree(a: seq<Step>, b: seq<Step>, c: seq<Step>, d: seq<Step>, e: seq<Step>, f: seq<Step>, k: Kind)
    requires AfterParuShape(a, b, c, d, e, f)
    ensures Select(d, k) == (if k == OtherKind then d else [])
    ensures Select(e, k) == (if k == OtherKind then e else [])
    ensures Select(f, k) == (if k == TldrUpdateKind then f else [])
  {
    SelectFromBlock(d, OtherKind, k);
    SelectFromBlock(e, OtherKind, k);
    SelectFromBlock(f, TldrUpdateKind, k);
  }

  /** Selecting a counted kind from six blocks in which only the first, the
      second and the last can hold steps of that kind, each of one kind. */
  lemma SelectFromSix(a: seq<Step>, b: seq<Step>, c: seq<Step>, d: seq<Step>, e: seq<Step>, f: seq<Step>, k: Kind)
    requires k != OtherKind
    requires Select(a, k) == (if k == RustupRemovalKind then a else [])
    requires Select(b, k) == (if k == EnableKind then b else [])
    requires Select(c, k) == [] && Select(d, k) == [] && Select(e, k) == []
    requires Select(f, k) == (if k == TldrUpdateKind then f else [])
    ensures Select(a + b + c + d + e + f, k)
      == if k == RustupRemovalKind then a else if k == EnableKind then b else if k == TldrUpdateKind then f else []
  {
    SelectSkipsMiddle(a, b, c, d, e, f, k);
    if k == RustupRemovalKind {
      assert Select(a, k) + Select(b, k) + Select(f, k) == a + [] + [];
    } else if k == EnableKind {
      assert Select(a, k) + Select(b, k) + Select(f, k) == [] + b + [];
    } else if k == TldrUpdateKind {
      assert Select(a, k) + Select(b, k) + Select(f, k) == [] + [] + f;
    } else {
      assert Select(a, k) + Select(b, k) + Select(f, k) == [] + [] + [];
    }
  }

  /** Selecting a counted kind from six blocks shaped like the steps after
      paru's removal. */
  lemma SelectFromAfterParuShape(a: seq<Step>, b: seq<Step>, c: seq<Step>, d: seq<Step>, e: seq<Step>, f: seq<Step>, k: Kind)
    requires AfterParuShape(a, b, c, d, e, f)
    requires k != OtherKind
    ensures Select(a + b + c + d + e + f, k)
      == if k == RustupRemovalKind then a else if k == EnableKind then b else if k == TldrUpdateKind then f else []
  {
    SelectFromFirstThree(a, b, c, d, e, f, k);
    SelectFromLastThree(a, b, c, d, e, f, k);
    SelectFromSix(a, b, c, d, e, f, k);
  }

  /** Selecting from six blocks of which the middle three hold nothing of the
      kind selected. */
  lemma SelectSkipsMiddle(a: seq<Step>, b: seq<Step>, c: seq<Step>, d: seq<Step>, e: seq<Step>, f: seq<Step>, k: Kind)
    requires Select(c, k) == [] && Select(d, k) == [] && Select(e, k) == []
    ensures Select(a + b + c + d + e + f, k) == Select(a, k) + Select(b, k) + Select(f, k)
  {
    SelectAppend(a, b, k);
    SelectAppend(a + b, c, k);
    SelectAppend(a + b + c, d, k);
    SelectAppend(a + b + c + d, e, k);
    SelectAppend(a + b + c + d + e, f, k);
  }

  /** The blocks of the steps after paru's removal have that shape. */
  lemma AfterParuHasShape(install: Installer)
    ensures var p, s := install.packages, install.settings;
      AfterParuShape(
        if "rustup" !in p.programmingLanguage then [Run(RemoveRustup)] else [],
        if s.enableServices then EnableSteps(p.service) else [],
        if s.installOmf then OmfSteps else [],
        if s.changeShell then [Run(ChangeShell)] else [],
        if s.installBedrock then BedrockSteps else [],
        if "tealdeer" in p.software then [Run(UpdateTldr)] else [])
  {
    var p, s := install.packages, install.settings;
    EnableStepsKind(p.service);
    assert forall st :: st in (if "rustup" !in p.programmingLanguage then [Run(RemoveRustup)] else []) ==> KindOf(st) == RustupRemovalKind;
    assert forall st :: st in (if s.installOmf then OmfSteps else []) ==> KindOf(st) == OtherKind;
    assert forall st :: st in (if s.changeShell then [Run(ChangeShell)] else []) ==> KindOf(st) == OtherKind;
    assert forall st :: st in (if s.installBedrock then BedrockSteps else []) ==> KindOf(st) == OtherKind;
    assert forall st :: st in (if "tealdeer" in p.software then [Run(UpdateTldr)] else []) ==> KindOf(st) == TldrUpdateKind;
  }

  /** After the removal of paru no install and no git step remains. */
  lemma AfterParuKinds(install: Installer)
    ensures forall st :: st in AfterParu(install) ==> KindOf(st) != InstallKind && KindOf(st) != GitKind
  {
    var p, s := install.packages, install.settings;
    AfterParuHasShape(install);
    KindsOfAfterParuShape(
      if "rustup" !in p.programmingLanguage then [Run(RemoveRustup)] else [],
      if s.enableServices then EnableSteps(p.service) else [],
      if s.installOmf then OmfSteps else [],
      if s.changeShell then [Run(ChangeShell)] else [],
      if s.installBedrock then BedrockSteps else [],
      if "tealdeer" in p.software then [Run(UpdateTldr)] else []);
  }

  lemma AfterInstallsKinds(install: Installer, gitName: string, gitEmail: string)
    ensures forall st :: st in AfterInstalls(install, gitName, gitEmail) ==> KindOf(st) != InstallKind
  {
    AfterParuKinds(install);
  }

  /** `finish_install` opens with `paru -Syu`, then installs every selected
      package (software, services, fonts, programming languages, utilities, in
      that order), and installs nothing after that. */
  lemma PlanInstallsFirst(install: Installer, gitName: string, gitEmail: string)
    ensures var plan, all := Plan(install, gitName, gitEmail), AllPackages(install.packages);
      |plan| > |all| && plan[0] == Run(Upgrade) && plan[1..|all| + 1] == InstallSteps(all)
      && forall i :: 0 <= i < |plan| ==> (KindOf(plan[i]) == InstallKind <==> 1 <= i <= |all|)
  {
    var plan, all := Plan(install, gitName, gitEmail), AllPackages(install.packages);
    var head := [Run(Upgrade)] + InstallBlock(install.packages);
    var rest := AfterInstalls(install, gitName, gitEmail);
    InstallBlockInstallsAll(install.packages);
    InstallStepsKind(all);
    AfterInstallsKinds(install, gitName, gitEmail);
    assert plan == head + rest;
    assert plan[1..|all| + 1] == InstallSteps(all);
    forall i | 0 <= i < |plan|
      ensures KindOf(plan[i]) == InstallKind <==> 1 <= i <= |all|
    {
      if i == 0 {
      } else if i <= |all| {
        assert plan[i] == InstallSteps(all)[i - 1];
      } else {
        assert plan[i] == rest[i - |head|];
      }
    }
  }

  /** The steps of each counted kind after paru's removal. */
  lemma AfterParuSelect(install: Installer, k: Kind)
    requires k != OtherKind
    ensures var p, s := install.packages, install.settings;
      Select(AfterParu(install), k)
      == if k == RustupRemovalKind then (if "rustup" !in p.programmingLanguage then [Run(RemoveRustup)] else [])
         else if k == EnableKind then (if s.enableServices then EnableSteps(p.service) else [])
         else if k == TldrUpdateKind then (if "tealdeer" in p.software then [Run(UpdateTldr)] else [])
         else []
  {
    var p, s := install.packages, install.settings;
    var a := if "rustup" !in p.programmingLanguage then [Run(RemoveRustup)] else [];
    var b := if s.enableServices then EnableSteps(p.service) else [];
    var c := if s.installOmf then OmfSteps else [];
    var d := if s.changeShell then [Run(ChangeShell)] else [];
    var e := if s.installBedrock then BedrockSteps else [];
    var f := if "tealdeer" in p.software then [Run(UpdateTldr)] else [];
    AfterParuHasShape(install);
    SelectFromAfterParuShape(a, b, c, d, e, f, k);
  }

  lemma {:induction false} SelectOfHead(steps: seq<Step>, k: Kind)
    requires forall st :: st in steps ==> KindOf(st) == OtherKind || KindOf(st) == InstallKind
    requires k != OtherKind && k != InstallKind
    ensures Select(steps, k) == []
    decreases |steps|
  {
    if steps != [] {
      assert steps[0] in steps;
      assert forall st :: st in steps[1..] ==> st in steps;
      SelectOfHead(steps[1..], k);
    }
  }

  /** Selecting from a sequence shaped like the plan: a head of the upgrade
      and installs, a git block, a paru removal block, and the rest. */
  lemma SelectFromPlanShape(head: seq<Step>, git: seq<Step>, paru: seq<Step>, rest: seq<Step>, k: Kind)
    requires forall st :: st in head ==> KindOf(st) == OtherKind || KindOf(st) == InstallKind
    requires forall st :: st in git ==> KindOf(st) == GitKind
    requires forall st :: st in paru ==> KindOf(st) == ParuRemovalKind
    requires k != OtherKind && k != InstallKind
    ensures Select(head + (git + (paru + rest)), k)
      == (if k == GitKind then git else []) + (if k == ParuRemovalKind then paru else []) + Select(rest, k)
  {
    SelectAppend(head, git + (paru + rest), k);
    SelectAppend(git, paru + rest, k);
    SelectAppend(paru, rest, k);
    SelectOfHead(head, k);
    SelectFromBlock(git, GitKind, k);
    SelectFromBlock(paru, ParuRemovalKind, k);
    AppendAssociates(Select(git, k), Select(paru, k), Select(rest, k));
  }

  /** The steps of a counted kind other than installs: those of the git block,
      of paru's removal and of the steps after it. */
  lemma PlanSelect(install: Installer, gitName: string, gitEmail: string, k: Kind)
    requires k != OtherKind && k != InstallKind
    ensures var s := install.settings;
      Select(Plan(install, gitName, gitEmail), k)
      == (if k == GitKind && s.setGitConfig then GitSteps(gitName, gitEmail) else [])
      + (if k == ParuRemovalKind && !s.installParu then [Run(RemoveParu)] else [])
      + Select(AfterParu(install), k)
  {
    var s := install.settings;
    HeadKinds(install.packages);
    FixedKindsAreSingletons(Run(RemoveParu));
    SelectFromPlanShape(
      [Run(Upgrade)] + InstallBlock(install.packages),
      if s.setGitConfig then GitSteps(gitName, gitEmail) else [],
      if !s.installParu then [Run(RemoveParu)] else [],
      AfterParu(install),
      k);
  }

  /** The enable commands of the plan are exactly those of `run_enable_services`
      on the selected services when `enable_services` is set, and there are
      none otherwise. */
  lemma PlanEnablesServicesOnlyWhenAsked(install: Installer, gitName: string, gitEmail: string)
    ensures Select(Plan(install, gitName, gitEmail), EnableKind)
      == if install.settings.enableServices then EnableSteps(install.packages.service) else []
  {
    PlanSelect(install, gitName, gitEmail, EnableKind);
    AfterParuSelect(install, EnableKind);
  }

  /** The git commands of the plan are the two `git config` commands when
      `set_git_config` is set, and there are none otherwise. */
  lemma PlanConfiguresGitOnlyWhenAsked(install: Installer, gitName: string, gitEmail: string)
    ensures Select(Plan(install, gitName, gitEmail), GitKind)
      == if install.settings.setGitConfig then GitSteps(gitName, gitEmail) else []
  {
    PlanSelect(install, gitName, gitEmail, GitKind);
    AfterParuSelect(install, GitKind);
  }

  /** `paru -Rns rustup` is issued once exactly when `rustup` is not among the
      selected programming languages, and never otherwise. */
  lemma PlanRemovesRustupUnlessSelected(install: Installer, gitName: string, gitEmail: string)
    ensures Select(Plan(install, gitName, gitEmail), RustupRemovalKind)
      == if "rustup" in install.packages.programmingLanguage then [] else [Run(RemoveRustup)]
  {
    PlanSelect(install, gitName, gitEmail, RustupRemovalKind);
    AfterParuSelect(install, RustupRemovalKind);
  }

  /** In `pre + mid + post`, a step `x` that `pre` does not hold comes after
      every step of kinds `k1` and `k2` when neither `mid` nor `post` holds
      such a step. */
  lemma {:induction false} FollowsKinds(pre: seq<Step>, mid: seq<Step>, post: seq<Step>, x: Step, k1: Kind, k2: Kind)
    requires x !in pre
    requires forall st :: st in mid + post ==> KindOf(st) != k1 && KindOf(st) != k2
    ensures var s := pre + mid + post;
      forall i, j :: 0 <= i < |s| && 0 <= j < |s| && s[j] == x && (KindOf(s[i]) == k1 || KindOf(s[i]) == k2) ==> i < j
  {
    var s := pre + mid + post;
    forall i, j | 0 <= i < |s| && 0 <= j < |s| && s[j] == x && (KindOf(s[i]) == k1 || KindOf(s[i]) == k2)
      ensures i < j
    {
    }
  }

  /** `paru -Rns paru` is issued exactly once when paru is not to be kept, and
      never otherwise. */
  lemma PlanRemovesParuUnlessKept(install: Installer, gitName: string, gitEmail: string)
    ensures Select(Plan(install, gitName, gitEmail), ParuRemovalKind)
      == if install.settings.installParu then [] else [Run(RemoveParu)]
  {
    PlanSelect(install, gitName, gitEmail, ParuRemovalKind);
    AfterParuSelect(install, ParuRemovalKind);
  }

  /** In a sequence shaped like the plan, a paru removal comes after every
      install and every git step when the rest holds neither. */
  lemma ParuRemovalFollowsInPlanShape(head: seq<Step>, git: seq<Step>, paru: seq<Step>, rest: seq<Step>)
    requires forall st :: st in head ==> KindOf(st) == OtherKind || KindOf(st) == InstallKind
    requires forall st :: st in git ==> KindOf(st) == GitKind
    requires forall st :: st in paru ==> KindOf(st) == ParuRemovalKind
    requires forall st :: st in rest ==> KindOf(st) != InstallKind && KindOf(st) != GitKind
    ensures var s := head + (git + (paru + rest));
      forall i, j ::
        (0 <= i < |s| && 0 <= j < |s| && s[j] == Run(RemoveParu)
         && (KindOf(s[i]) == InstallKind || KindOf(s[i]) == GitKind)) ==> i < j
  {
    AppendAssociates(head, git, paru + rest);
    AppendAssociates(head + git, paru, rest);
    assert Run(RemoveParu) !in head + git;
    FollowsKinds(head + git, paru, rest, Run(RemoveParu), InstallKind, GitKind);
  }

  /** `paru -Rns paru` comes after every install and every git command. */
  lemma PlanRemovesParuAfterInstallsAndGit(install: Installer, gitName: string, gitEmail: string)
    ensures var plan := Plan(install, gitName, gitEmail);
      forall i, j ::
        (0 <= i < |plan| && 0 <= j < |plan| && plan[j] == Run(RemoveParu)
         && (KindOf(plan[i]) == InstallKind || KindOf(plan[i]) == GitKind)) ==> i < j
  {
    var p, s := install.packages, install.settings;
    HeadKinds(p);
    AfterParuKinds(install);
    ParuRemovalFollowsInPlanShape(
      [Run(Upgrade)] + InstallBlock(p),
      if s.setGitConfig then GitSteps(gitName, gitEmail) else [],
      if !s.installParu then [Run(RemoveParu)] else [],
      AfterParu(install));
  }

  /** `tldr --update` is issued once exactly when `tealdeer` is among the
      selected software (not the utilities), and never otherwise. */
  lemma PlanUpdatesTldrOnlyForTealdeer(install: Installer, gitName: string, gitEmail: string)
    ensures Select(Plan(install, gitName, gitEmail), TldrUpdateKind)
      == if "tealdeer" in install.packages.software then [Run(UpdateTldr)] else []
  {
    PlanSelect(install, gitName, gitEmail, TldrUpdateKind);
    AfterParuSelect(install, TldrUpdateKind);
  }

  /** The steps that only the three optional blocks after paru's removal
      (Oh My Fish, the change of shell, Bedrock Linux) can hold. */
  predicate Optional(x: Step) {
    x.Download?
    || (x.Run? && x.command != Upgrade && x.command != RemoveParu
        && x.command != RemoveRustup && x.command != UpdateTldr)
  }

  /** In a sequence shaped like the plan, a step that the head, the git
      block and paru's removal do not hold is in it exactly when it is in the
      rest. */
  lemma MemberOfPlanShape(head: seq<Step>, git: seq<Step>, paru: seq<Step>, rest: seq<Step>, x: Step)
    requires x !in head && x !in git && x !in paru
    ensures x in head + (git + (paru + rest)) <==> x in rest
  {
  }

  /** In six blocks shaped like the steps after paru's removal, a step that
      the first, the second and the last do not hold is in them exactly when
      it is in the middle three. */
  lemma MemberOfAfterParuShape(a: seq<Step>, b: seq<Step>, c: seq<Step>, d: seq<Step>, e: seq<Step>, f: seq<Step>, x: Step)
    requires x !in a && x !in b && x !in f
    ensures x in a + b + c + d + e + f <==> x in c + d + e
  {
  }

  lemma OptionalNotInHead(p: Packages, x: Step)
    requires Optional(x)
    ensures x !in [Run(Upgrade)] + InstallBlock(p)
  {
    InstallBlockInstallsAll(p);
    InstallStepsKind(AllPackages(p));
  }

  lemma OptionalNotInEnables(services: seq<string>, x: Step)
    requires Optional(x)
    ensures x !in EnableSteps(services)
  {
    EnableStepsAreEnables(services);
  }

  /** After paru's removal, an optional step is in the blocks of Oh My Fish,
      the change of shell and Bedrock Linux, or nowhere. */
  lemma AfterParuOptionalMembers(install: Installer, x: Step)
    requires Optional(x)
    ensures var s := install.settings;
      x in AfterParu(install)
      <==> x in (if s.installOmf then OmfSteps else [])
              + (if s.changeShell then [Run(ChangeShell)] else [])
              + (if s.installBedrock then BedrockSteps else [])
  {
    var p, s := install.packages, install.settings;
    OptionalNotInEnables(p.service, x);
    MemberOfAfterParuShape(
      if "rustup" !in p.programmingLanguage then [Run(RemoveRustup)] else [],
      if s.enableServices then EnableSteps(p.service) else [],
      if s.installOmf then OmfSteps else [],
      if s.changeShell then [Run(ChangeShell)] else [],
      if s.installBedrock then BedrockSteps else [],
      if "tealdeer" in p.software then [Run(UpdateTldr)] else [],
      x);
  }

  /** An optional step is in the plan exactly when it is in the blocks of
      Oh My Fish, the change of shell and Bedrock Linux that the answers
      select. */
  lemma PlanOptionalMembers(install: Installer, gitName: string, gitEmail: string, x: Step)
    requires Optional(x)
    ensures var s := install.settings;
      x in Plan(install, gitName, gitEmail)
      <==> x in (if s.installOmf then OmfSteps else [])
              + (if s.changeShell then [Run(ChangeShell)] else [])
              + (if s.installBedrock then BedrockSteps else [])
  {
    var p, s := install.packages, install.settings;
    OptionalNotInHead(p, x);
    MemberOfPlanShape(
      [Run(Upgrade)] + InstallBlock(p),
      if s.setGitConfig then GitSteps(gitName, gitEmail) else [],
      if !s.installParu then [Run(RemoveParu)] else [],
      AfterParu(install),
      x);
    AfterParuOptionalMembers(install, x);
  }

  /** The three optional blocks, selected by their answers, hold the steps of
      each block exactly when its answer is yes. */
  lemma OptionalBlocksMembers(omf: bool, shell: bool, bedrock: bool)
    ensures var blocks := (if omf then OmfSteps else []) + (if shell then [Run(ChangeShell)] else [])
                          + (if bedrock then BedrockSteps else []);
      (Download(OmfUrl, OmfScript) in blocks <==> omf)
      && (Run(RunOmf) in blocks <==> omf) && (Run(RemoveOmf) in blocks <==> omf)
      && (Run(ChangeShell) in blocks <==> shell)
      && (Download(BedrockUrl, BedrockScript) in blocks <==> bedrock)
      && (Run(RunBedrock) in blocks <==> bedrock) && (Run(RemoveBedrock) in blocks <==> bedrock)
  {
    assert OmfScript != BedrockScript;
  }

  /** Oh My Fish is installed exactly when its answer is yes: the download of
      its installer, `fish install` and `rm install` are in the plan exactly
      then. */
  lemma PlanInstallsOhMyFishOnlyWhenAsked(install: Installer, gitName: string, gitEmail: string)
    ensures var plan, s := Plan(install, gitName, gitEmail), install.settings;
      (Download(OmfUrl, OmfScript) in plan <==> s.installOmf)
      && (Run(RunOmf) in plan <==> s.installOmf)
      && (Run(RemoveOmf) in plan <==> s.installOmf)
  {
    var s := install.settings;
    OptionalBlocksMembers(s.installOmf, s.changeShell, s.installBedrock);
    PlanOptionalMembers(install, gitName, gitEmail, Download(OmfUrl, OmfScript));
    PlanOptionalMembers(install, gitName, gitEmail, Run(RunOmf));
    PlanOptionalMembers(install, gitName, gitEmail, Run(RemoveOmf));
  }

  /** `chsh -s /usr/bin/fish` is in the plan exactly when the change of shell
      was asked for. */
  lemma PlanChangesShellOnlyWhenAsked(install: Installer, gitName: string, gitEmail: string)
    ensures Run(ChangeShell) in Plan(install, gitName, gitEmail) <==> install.settings.changeShell
  {
    var s := install.settings;
    OptionalBlocksMembers(s.installOmf, s.changeShell, s.installBedrock);
    PlanOptionalMembers(install, gitName, gitEmail, Run(ChangeShell));
  }

  /** Bedrock Linux is installed exactly when its answer is yes: the download
      of its installer, running it with `--hijack` and its removal are in the
      plan exactly then. */
  lemma PlanInstallsBedrockOnlyWhenAsked(install: Installer, gitName: string, gitEmail: string)
    ensures var plan, s := Plan(install, gitName, gitEmail), install.settings;
      (Download(BedrockUrl, BedrockScript) in plan <==> s.installBedrock)
      && (Run(RunBedrock) in plan <==> s.installBedrock)
      && (Run(RemoveBedrock) in plan <==> s.installBedrock)
  {
    var s := install.settings;
    OptionalBlocksMembers(s.installOmf, s.changeShell, s.installBedrock);
    PlanOptionalMembers(install, gitName, gitEmail, Download(BedrockUrl, BedrockScript));
    PlanOptionalMembers(install, gitName, gitEmail, Run(RunBedrock));
    PlanOptionalMembers(install, gitName, gitEmail, Run(RemoveBedrock));
  }

  /** The last step of a non-empty sequence of steps. */
  function Last(steps: seq<Step>): (r: Step)
    requires steps != []
    ensures r in steps
    decreases |steps|
  {
    if |steps| == 1 then steps[0] else Last(steps[1..])
  }

  lemma {:induction false} LastOfAppend(a: seq<Step>, b: seq<Step>)
    requires b != []
    ensures Last(a + b) == Last(b)
    decreases |a|
  {
    if a != [] {
      assert |a + b| != 1;
      assert (a + b)[1..] == a[1..] + b;
      LastOfAppend(a[1..], b);
    } else {
      assert a + b == b;
    }
  }

  /** The plan ends with `tldr --update` exactly when `tealdeer` is among the
      selected software. */
  lemma PlanEndsWithTldrUpdate(install: Installer, gitName: string, gitEmail: string)
    ensures Last(Plan(install, gitName, gitEmail)) == Run(UpdateTldr) <==> "tealdeer" in install.packages.software
  {
    if "tealdeer" in install.packages.software {
      TealdeerEndsThePlan(install, gitName, gitEmail);
    } else {
      PlanUpdatesTldrOnlyForTealdeer(install, gitName, gitEmail);
      UnselectedIsNotLast(Plan(install, gitName, gitEmail), Run(UpdateTldr));
    }
  }

  /** A step whose kind selects nothing is not the last step. */
  lemma UnselectedIsNotLast(steps: seq<Step>, x: Step)
    requires steps != [] && Select(steps, KindOf(x)) == []
    ensures Last(steps) != x
  {
    if Last(steps) == x {
      var i :| 0 <= i < |steps| && steps[i] == x;
      SelectFinds(steps, i, KindOf(x));
    }
  }

  lemma TealdeerEndsThePlan(install: Installer, gitName: string, gitEmail: string)
    requires "tealdeer" in install.packages.software
    ensures Last(Plan(install, gitName, gitEmail)) == Run(UpdateTldr)
  {
    var p, s := install.packages, install.settings;
    var head := [Run(Upgrade)] + InstallBlock(p);
    var git := if s.setGitConfig then GitSteps(gitName, gitEmail) else [];
    var paru := if !s.installParu then [Run(RemoveParu)] else [];
    var front :=
      (if "rustup" !in p.programmingLanguage then [Run(RemoveRustup)] else [])
      + (if s.enableServices then EnableSteps(p.service) else [])
      + (if s.installOmf then OmfSteps else [])
      + (if s.changeShell then [Run(ChangeShell)] else [])
      + (if s.installBedrock then BedrockSteps else []);
    LastOfPlanShape(head, git, paru, front, Run(UpdateTldr));
  }

  /** A sequence shaped like the plan ends with the step that ends its last
      block. */
  lemma LastOfPlanShape(head: seq<Step>, git: seq<Step>, paru: seq<Step>, front: seq<Step>, x: Step)
    ensures Last(head + (git + (paru + (front + [x])))) == x
  {
    LastOfAppend(front, [x]);
    LastOfAppend(paru, front + [x]);
    LastOfAppend(git, paru + (front + [x]));
    LastOfAppend(head, git + (paru + (front + [x])));
  }

  /** The KDE-theme and audio-normalisation answers change nothing. */
  lemma KdeThemeAndAudioAddNothing(install: Installer, gitName: string, gitEmail: string, kdeTheme: bool, normalizeAudio: bool)
    ensures var settings := install.settings.(installKdeTheme := kdeTheme, normalizeAudio := normalizeAudio);
      Plan(install.(settings := settings), gitName, gitEmail) == Plan(install, gitName, gitEmail)
  {
  }

  /** With the default installer (nothing selected, every answer no) the
      script upgrades, then removes paru and rustup. */
  lemma DefaultPlan(gitName: string, gitEmail: string)
    ensures Plan(DefaultInstaller, gitName, gitEmail) == [Run(Upgrade), Run(RemoveParu), Run(RemoveRustup)]
  {
    assert InstallBlock(DefaultPackages) == [];
  }

  /** bluez as a service, rustup as a language and tealdeer as a utility, with
      paru kept and services enabled: the plan upgrades, installs the three,
      enables `bluetooth.service`, removes neither paru nor rustup, and does
      not update tldr, since tealdeer was not chosen as software. */
  lemma TealdeerAsUtilityPlan(gitName: string, gitEmail: string)
    ensures var install := Installer(
        Packages([], ["bluez"], [], ["rustup"], ["tealdeer"]),
        Settings(true, false, false, false, false, true, false, false));
      Plan(install, gitName, gitEmail)
      == [Run(Upgrade), Install("bluez"), Install("rustup"), Install("tealdeer"), Enable("bluetooth.service")]
  {
    var install := Installer(
        Packages([], ["bluez"], [], ["rustup"], ["tealdeer"]),
        Settings(true, false, false, false, false, true, false, false));
    assert InstallBlock(install.packages) == [Install("bluez"), Install("rustup"), Install("tealdeer")];
    assert "bluez" !in NoUnit;
    assert EnableSteps(["bluez"]) == [Enable("bluetooth.service")];
    assert "tealdeer" !in install.packages.software;
  }

  /** The forms a step of `finish_install` takes: an install, a service to
      enable, a download, one of the two git settings, or a fixed command. */
  predicate ScriptStep(st: Step, gitName: string, gitEmail: string) {
    st.Install? || st.Enable? || st.Download?
    || st == GitConfig("user.name", gitName) || st == GitConfig("user.email", gitEmail)
    || st.Run?
  }

  lemma {:induction false} EnableStepsAreEnables(services: seq<string>)
    ensures forall st :: st in EnableSteps(services) ==> st.Enable?
    decreases |services|
  {
    if services != [] {
      EnableStepsAreEnables(services[1..]);
    }
  }

  predicate ScriptSteps(steps: seq<Step>, gitName: string, gitEmail: string) {
    forall st :: st in steps ==> ScriptStep(st, gitName, gitEmail)
  }

  lemma ScriptStepsOfSix(a: seq<Step>, b: seq<Step>, c: seq<Step>, d: seq<Step>, e: seq<Step>, f: seq<Step>, gitName: string, gitEmail: string)
    requires ScriptSteps(a, gitName, gitEmail) && ScriptSteps(b, gitName, gitEmail) && ScriptSteps(c, gitName, gitEmail)
    requires ScriptSteps(d, gitName, gitEmail) && ScriptSteps(e, gitName, gitEmail) && ScriptSteps(f, gitName, gitEmail)
    ensures ScriptSteps(a + b + c + d + e + f, gitName, gitEmail)
  {
    forall st | st in a + b + c + d + e + f
      ensures ScriptStep(st, gitName, gitEmail)
    {
      assert st in a || st in b || st in c || st in d || st in e || st in f;
    }
  }

  lemma AfterParuSteps(install: Installer, gitName: string, gitEmail: string)
    ensures ScriptSteps(AfterParu(install), gitName, gitEmail)
  {
    var p, s := install.packages, install.settings;
    EnableStepsAreEnables(p.service);
    ScriptStepsOfSix(
      if "rustup" !in p.programmingLanguage then [Run(RemoveRustup)] else [],
      if s.enableServices then EnableSteps(p.service) else [],
      if s.installOmf then OmfSteps else [],
      if s.changeShell then [Run(ChangeShell)] else [],
      if s.installBedrock then BedrockSteps else [],
      if "tealdeer" in p.software then [Run(UpdateTldr)] else [],
      gitName, gitEmail);
  }

  lemma ScriptStepsOfPlanShape(head: seq<Step>, git: seq<Step>, paru: seq<Step>, rest: seq<Step>, gitName: string, gitEmail: string)
    requires ScriptSteps(head, gitName, gitEmail) && ScriptSteps(git, gitName, gitEmail)
    requires ScriptSteps(paru, gitName, gitEmail) && ScriptSteps(rest, gitName, gitEmail)
    ensures ScriptSteps(head + (git + (paru + rest)), gitName, gitEmail)
  {
    forall st | st in head + (git + (paru + rest))
      ensures ScriptStep(st, gitName, gitEmail)
    {
      assert st in head || st in git || st in paru || st in rest;
    }
  }

  lemma HeadSteps(p: Packages, gitName: string, gitEmail: string)
    ensures ScriptSteps([Run(Upgrade)] + InstallBlock(p), gitName, gitEmail)
  {
    InstallBlockInstallsAll(p);
  }

  /** Every step of the plan has one of the forms of `ScriptStep`. */
  lemma PlanStepsAreScriptSteps(install: Installer, gitName: string, gitEmail: string)
    ensures ScriptSteps(Plan(install, gitName, gitEmail), gitName, gitEmail)
  {
    var s := install.settings;
    HeadSteps(install.packages, gitName, gitEmail);
    AfterParuSteps(install, gitName, gitEmail);
    ScriptStepsOfPlanShape(
      [Run(Upgrade)] + InstallBlock(install.packages),
      if s.setGitConfig then GitSteps(gitName, gitEmail) else [],
      if !s.installParu then [Run(RemoveParu)] else [],
      AfterParu(install),
      gitName, gitEmail);
  }
}
