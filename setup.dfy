/** The post-install script of `src/main.rs` as data: the records the prompts
    fill in, the command strings the script builds, and the ordered plan of
    steps that `finish_install` works through for a given `Installer`. */
module Setup {
  import opened Wrappers
  import opened CommandLine

  /** The five selections, one per catalog category, in the order chosen. */
  datatype Packages = Packages(
    software: seq<string>,
    service: seq<string>,
    font: seq<string>,
    programmingLanguage: seq<string>,
    utility: seq<string>)

  /** The eight yes/no answers. */
  datatype Settings = Settings(
    installParu: bool,
    installBedrock: bool,
    installKdeTheme: bool,
    installOmf: bool,
    changeShell: bool,
    enableServices: bool,
    normalizeAudio: bool,
    setGitConfig: bool)

  datatype Installer = Installer(packages: Packages, settings: Settings)

  const DefaultPackages := Packages([], [], [], [], [])
  const DefaultSettings := Settings(false, false, false, false, false, false, false, false)
  const DefaultInstaller := Installer(DefaultPackages, DefaultSettings)

  /** What the user does at a `Confirm` prompt: answer yes or no, accept the
      default by entering nothing, skip the prompt, or make it fail (the input
      stream closed, say). */
  datatype ConfirmReply = Answered(yes: bool) | AcceptedDefault | Skipped | Failed

  /** The default every confirmation is shown with (`with_default(true)`). */
  const ConfirmDefault := true

  /** `get_bool_answer_to_question`: `None` is the panic of `.unwrap()` on an
      error; accepting the default gives `ConfirmDefault`; a skip becomes
      `false`. */
  function BoolAnswer(reply: ConfirmReply): (r: Option<bool>)
    ensures r.None? <==> reply.Failed?
    ensures r == Some(true) <==> reply == Answered(true) || reply == AcceptedDefault
  {
    match reply
    case Answered(yes) => Some(yes)
    case AcceptedDefault => Some(ConfirmDefault)
    case Skipped => Some(false)
    case Failed => None
  }

  /** The commands `finish_install` issues as fixed literals. */
  datatype Command =
    | Upgrade | RemoveParu | RemoveRustup | ChangeShell | UpdateTldr
    | RunOmf | RemoveOmf | RunBedrock | RemoveBedrock

  /** The program each fixed command starts. */
  function Program(c: Command): string {
    match c
    case Upgrade => "paru"
    case RemoveParu => "paru"
    case RemoveRustup => "paru"
    case ChangeShell => "chsh"
    case UpdateTldr => "tldr"
    case RunOmf => "fish"
    case RemoveOmf => "rm"
    case RunBedrock => "sh"
    case RemoveBedrock => "rm"
  }

  /** What follows the program in each fixed command. */
  function Arguments(c: Command): string {
    match c
    case Upgrade => "-Syu"
    case RemoveParu => "-Rns paru"
    case RemoveRustup => "-Rns rustup"
    case ChangeShell => "-s /usr/bin/fish"
    case UpdateTldr => "--update"
    case RunOmf => "install"
    case RemoveOmf => "install"
    case RunBedrock => "./bedrock-linux-0.7.27-x86_64.sh --hijack"
    case RemoveBedrock => "bedrock-linux-0.7.27-x86_64.sh"
  }

  /** The exact text of each fixed command. */
  function CommandText(c: Command): string {
    Program(c) + " " + Arguments(c)
  }

  /** One step of the script: a call of `run_command_with_args` (an install,
      a service to enable, a git setting, or one of the fixed commands), or a
      `download_file` of a URL into a local file. `Text` gives the exact
      command string of each call. */
  datatype Step =
    | Install(package: string)
    | Enable(unit: string)
    | GitConfig(key: string, value: string)
    | Run(command: Command)
    | Download(url: string, file: string)

  const OmfUrl := "https://raw.githubusercontent.com/oh-my-fish/oh-my-fish/master/bin/install"
  const OmfScript := "install"
  const BedrockUrl := "https://github.com/bedrocklinux/bedrocklinux-userland/releases/download/0.7.27/bedrock-linux-0.7.27-x86_64.sh"
  const BedrockScript := "bedrock-linux-0.7.27-x86_64.sh"

  const EnablePrefix := "sudo systemctl enable --now "

  /** Service packages that have no systemd unit of their own. */
  const NoUnit: seq<string> := ["bluez_utils", "hplip", "samsung-unified-driver", "samsung-unified-driver-printer"]

  function InstallCommand(package: string): string {
    "paru -S " + package + " --noconfirm"
  }

  function EnableCommand(unit: string): string {
    EnablePrefix + unit
  }

  /** A value wrapped in double quotes. */
  function Quoted(value: string): string {
    "\"" + value + "\""
  }

  /** `git config --global <key> "<value>"`. */
  function GitConfigCommand(key: string, value: string): string {
    "git config --global " + key + " " + Quoted(value)
  }

  /** The command string `run_command_with_args` receives for a step. */
  function Text(step: Step): string
    requires !step.Download?
  {
    match step
    case Install(package) => InstallCommand(package)
    case Enable(unit) => EnableCommand(unit)
    case GitConfig(key, value) => GitConfigCommand(key, value)
    case Run(command) => CommandText(command)
  }

  /** The unit `run_enable_services` enables for a selected service, or
      `None` when it enables nothing for it. */
  function ServiceUnit(service: string): (r: Option<string>)
    ensures service == "bluez" ==> r == Some("bluetooth.service")
    ensures service == "cups" ==> r == Some("cups.service")
    ensures r.None? <==> service in NoUnit
    ensures r.Some? && service != "bluez" && service != "cups" ==> r.value == service
  {
    if service == "bluez" then Some("bluetooth.service")
    else if service == "cups" then Some("cups.service")
    else if service in NoUnit then None
    else Some(service)
  }

  /** The steps of `install_packages`: one install per package, in order. */
  function InstallSteps(packages: seq<string>): (steps: seq<Step>)
    ensures |steps| == |packages|
    ensures forall i :: 0 <= i < |packages| ==> steps[i] == Install(packages[i])
  {
    if packages == [] then [] else [Install(packages[0])] + InstallSteps(packages[1..])
  }

  /** The steps of `run_enable_services`. */
  function EnableSteps(services: seq<string>): (steps: seq<Step>)
    ensures |steps| <= |services|
  {
    if services == [] then []
    else
      var first := match ServiceUnit(services[0])
        case Some(unit) => [Enable(unit)]
        case None => [];
      first + EnableSteps(services[1..])
  }

  function GitSteps(name: string, email: string): seq<Step> {
    [GitConfig("user.name", name), GitConfig("user.email", email)]
  }

  const OmfSteps := [Download(OmfUrl, OmfScript), Run(RunOmf), Run(RemoveOmf)]
  const BedrockSteps := [Download(BedrockUrl, BedrockScript), Run(RunBedrock), Run(RemoveBedrock)]

  /** Every selected package, in the order `finish_install` installs them. */
  function AllPackages(p: Packages): seq<string> {
    p.software + p.service + p.font + p.programmingLanguage + p.utility
  }

  /** The install block that opens `finish_install`, after the upgrade. */
  function InstallBlock(p: Packages): seq<Step> {
    InstallSteps(p.software) + InstallSteps(p.service) + InstallSteps(p.font)
    + InstallSteps(p.programmingLanguage) + InstallSteps(p.utility)
  }

  /** `finish_install` as a plan: everything it would run, in order, given the
      answers and the git name and email that would be typed in. */
  function Plan(install: Installer, gitName: string, gitEmail: string): seq<Step> {
    [Run(Upgrade)] + InstallBlock(install.packages) + AfterInstalls(install, gitName, gitEmail)
  }

  /** The steps of `finish_install` that follow the install block. */
  function AfterInstalls(install: Installer, gitName: string, gitEmail: string): seq<Step> {
    (if install.settings.setGitConfig then GitSteps(gitName, gitEmail) else [])
    + AfterGit(install)
  }

  /** The steps of `finish_install` that follow the git configuration. */
  function AfterGit(install: Installer): seq<Step> {
    (if !install.settings.installParu then [Run(RemoveParu)] else [])
    + AfterParu(install)
  }

  /** The steps of `finish_install` that follow the removal of paru. The
      KDE-theme and audio-normalisation branches are empty in the source and
      add nothing. */
  function AfterParu(install: Installer): seq<Step> {
    var p, s := install.packages, install.settings;
    (if "rustup" !in p.programmingLanguage then [Run(RemoveRustup)] else [])
    + (if s.enableServices then EnableSteps(p.service) else [])
    + (if s.installOmf then OmfSteps else [])
    + (if s.changeShell then [Run(ChangeShell)] else [])
    + (if s.installBedrock then BedrockSteps else [])
    + (if "tealdeer" in p.software then [Run(UpdateTldr)] else [])
  }
}
