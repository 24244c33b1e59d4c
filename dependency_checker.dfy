/**
 * The dependency checker: it checks for yt-dlp and ffmpeg in a fixed order, installs
 * whichever is missing, picking a package manager by operating system and by what is
 * on the PATH, and optionally installs a requirements file with pip.
 *
 * The host is an input: `platform.system()`, `shutil.which`, whether `import yt_dlp`
 * succeeds, `os.path.exists` and the outcome of every `subprocess.run` call.
 */
module Dependencies {
  import opened Wrappers
  import opened Environment
  import opened Logging

  /** What the checker learns from the machine it runs on. */
  datatype Host = Host(
    system: string,                  // platform.system()
    onPath: set<string>,             // the names shutil.which finds
    python: string,                  // sys.executable
    ytDlpImportable: bool,           // whether `import yt_dlp` succeeds
    fs: Fs,                          // what os.path.exists sees
    run: Argv -> CommandOutcome)     // how subprocess.run(argv, check=True) ends

  /** An exception raised out of a step. */
  datatype PyError = CalledProcessError(message: string) | FileNotFoundError

  /** What a step does: the messages it writes, the commands it runs, the exception it raises. */
  datatype Trace = Trace(messages: seq<Record>, ran: seq<Argv>, raised: Option<PyError>)

  const Nothing: Trace := Trace([], [], None)

  function Log(level: Level, message: string): Trace
  {
    Trace([Record(level, message)], [], None)
  }

  /** Sequential composition: an exception raised by the first step skips the second. */
  function Then(first: Trace, second: Trace): (t: Trace)
    ensures first.raised.Some? ==> t == first
    ensures first.raised.None? ==> t.raised == second.raised && t.ran == first.ran + second.ran
    ensures first.raised.None? ==> t.messages == first.messages + second.messages
  {
    if first.raised.Some? then first
    else Trace(first.messages + second.messages, first.ran + second.ran, second.raised)
  }

  /** `subprocess.run(argv, check=True)`, followed on success by the given messages. */
  function RunCheckedTrace(host: Host, argv: Argv, onSuccess: seq<Record>): (t: Trace)
    ensures t.ran == [argv]
    ensures t.raised.None? <==> host.run(argv).Completed?
    ensures host.run(argv).Completed? ==> t.messages == onSuccess
    ensures host.run(argv).NonZeroExit? ==> t.messages == [] && t.raised == Some(CalledProcessError(host.run(argv).message))
    ensures host.run(argv).NotFound? ==> t.messages == [] && t.raised == Some(FileNotFoundError)
  {
    match host.run(argv)
    case Completed => Trace(onSuccess, [argv], None)
    case NonZeroExit(message) => Trace([], [argv], Some(CalledProcessError(message)))
    case NotFound => Trace([], [argv], Some(FileNotFoundError))
  }

  /** `except subprocess.CalledProcessError as e:` logging `prefix + str(e)`; other exceptions pass. */
  function CatchCalledProcess(t: Trace, prefix: string): (r: Trace)
    ensures r.ran == t.ran
    ensures r.raised == if t.raised == Some(FileNotFoundError) then t.raised else None
    ensures t.raised.Some? && t.raised.value.CalledProcessError? ==>
      r.messages == t.messages + [Record(Error, prefix + t.raised.value.message)]
    ensures !(t.raised.Some? && t.raised.value.CalledProcessError?) ==> r.messages == t.messages
  {
    match t.raised
    case Some(CalledProcessError(message)) => Trace(t.messages + [Record(Error, prefix + message)], t.ran, None)
    case _ => t
  }

  /** The decision `_install_ffmpeg` takes before running anything. */
  datatype Installer =
    | Command(manager: string, argv: Argv, success: string)
    | Manual(warning: string)
    | NoInstaller

  const LinuxWarning := "No compatible package manager found. Please install ffmpeg manually."
  const DarwinWarning := "Homebrew not found. Please install Homebrew or install ffmpeg manually on macOS."
  const WindowsWarning :=
    "Chocolatey not found. Please install Chocolatey or manually install ffmpeg on Windows from https://ffmpeg.org/download.html"

  /** The package manager `_install_ffmpeg` uses, by operating system and by what is on the PATH. */
  function SelectFfmpegInstaller(system: string, onPath: set<string>): (choice: Installer)
    ensures choice.Command? ==> choice.manager in onPath
  {
    if system == "Linux" then
      if "apt" in onPath then
        Command("apt", ["sudo", "apt", "install", "-y", "ffmpeg"], "ffmpeg has been installed successfully via apt.")
      else if "yum" in onPath then
        Command("yum", ["sudo", "yum", "install", "-y", "ffmpeg"], "ffmpeg has been installed successfully via yum.")
      else if "pacman" in onPath then
        Command("pacman", ["sudo", "pacman", "-S", "--noconfirm", "ffmpeg"], "ffmpeg has been installed successfully via pacman.")
      else Manual(LinuxWarning)
    else if system == "Darwin" then
      if "brew" in onPath then
        Command("brew", ["brew", "install", "ffmpeg"], "ffmpeg has been installed successfully via Homebrew.")
      else Manual(DarwinWarning)
    else if system == "Windows" then
      if "choco" in onPath then
        Command("choco", ["choco", "install", "-y", "ffmpeg"], "ffmpeg has been installed successfully via Chocolatey.")
      else Manual(WindowsWarning)
    else NoInstaller
  }

  /**
   * A command is chosen exactly when the system's own package manager is on the PATH,
   * and nothing at all, not even a warning, on a system other than the three supported.
   */
  lemma InstallerAvailability(system: string, onPath: set<string>)
    ensures var choice := SelectFfmpegInstaller(system, onPath);
      && (choice.Command? <==>
            || (system == "Linux" && ("apt" in onPath || "yum" in onPath || "pacman" in onPath))
            || (system == "Darwin" && "brew" in onPath)
            || (system == "Windows" && "choco" in onPath))
      && (choice.NoInstaller? <==> system != "Linux" && system != "Darwin" && system != "Windows")
  {
  }

  /** On Linux the first of apt, yum and pacman found on the PATH wins. */
  lemma LinuxPriority(onPath: set<string>)
    ensures var choice := SelectFfmpegInstaller("Linux", onPath);
      && ("apt" in onPath ==> choice.manager == "apt")
      && ("apt" !in onPath && "yum" in onPath ==> choice.manager == "yum")
      && ("apt" !in onPath && "yum" !in onPath && "pacman" in onPath ==> choice.manager == "pacman")
      && (choice.Command? ==> choice.manager in {"apt", "yum", "pacman"})
  {
  }

  /** macOS only ever uses Homebrew and Windows only Chocolatey, whatever else is installed. */
  lemma OneManagerPerOtherSystem(onPath: set<string>)
    ensures var darwin := SelectFfmpegInstaller("Darwin", onPath);
      darwin.Command? ==> darwin.manager == "brew"
    ensures var windows := SelectFfmpegInstaller("Windows", onPath);
      windows.Command? ==> windows.manager == "choco"
  {
  }

  /** The messages of the checker. */
  const AttemptingFfmpeg := Record(Info, "Attempting to install ffmpeg...")
  function Attempting(name: string): Record { Record(Info, "Attempting to install " + name + "...") }
  function FailedInstall(name: string): string { "Failed to install " + name + ": " }
  function MissingRequirements(path: string): Record { Record(Error, "Requirements file " + path + " not found.") }
  function AttemptingRequirements(path: string): Record { Record(Info, "Attempting to install packages from " + path + "...") }
  function RequirementsInstalled(path: string): Record { Record(Info, "Packages from " + path + " have been installed successfully.") }
  function FailedRequirements(path: string): string { "Failed to install packages from " + path + ": " }

  function PipInstall(host: Host, package: string): Argv { [host.python, "-m", "pip", "install", package] }
  function PipInstallRequirements(host: Host, path: string): Argv { [host.python, "-m", "pip", "install", "-r", path] }
  const FfmpegProbe: Argv := ["ffmpeg", "--version"]

  /** `_install_ffmpeg`. */
  function InstallFfmpegTrace(host: Host): (t: Trace)
    ensures |t.ran| <= 1
    ensures t.raised.Some? ==> t.ran != []
  {
    var attempt := Trace([AttemptingFfmpeg], [], None);
    match SelectFfmpegInstaller(host.system, host.onPath)
    case Command(_, argv, success) => Then(attempt, RunCheckedTrace(host, argv, [Record(Info, success)]))
    case Manual(warning) => Trace([AttemptingFfmpeg] + [Record(Warning, warning)], [], None)
    case NoInstaller => attempt
  }

  /** `install_dependency(name)`. */
  function InstallDependencyTrace(host: Host, name: string): (t: Trace)
    ensures |t.ran| <= 1
    ensures t.raised.Some? ==> t.raised == Some(FileNotFoundError)
  {
    var body :=
      if name == "yt-dlp" then RunCheckedTrace(host, PipInstall(host, "yt-dlp"), [Record(Info, "yt-dlp has been installed successfully.")])
      else if name == "ffmpeg" then InstallFfmpegTrace(host)
      else Nothing;
    Then(Trace([Attempting(name)], [], None), CatchCalledProcess(body, FailedInstall(name)))
  }

  /** `_check_yt_dlp`: an install only when the import fails. */
  function CheckYtDlpTrace(host: Host): (t: Trace)
    ensures host.ytDlpImportable ==> t.ran == [] && t.raised.None?
    ensures !host.ytDlpImportable ==> t.ran == [PipInstall(host, "yt-dlp")]
    ensures t.raised.Some? ==> t.raised == Some(FileNotFoundError)
  {
    if host.ytDlpImportable then Log(Info, "yt-dlp is already installed.")
    else Then(Log(Warning, "yt-dlp is not installed."), InstallDependencyTrace(host, "yt-dlp"))
  }

  /** `_check_ffmpeg`: an install only when `ffmpeg --version` fails or is not found. */
  function CheckFfmpegTrace(host: Host): (t: Trace)
    ensures 1 <= |t.ran| <= 2 && t.ran[0] == FfmpegProbe
    ensures host.run(FfmpegProbe).Completed? ==> t.ran == [FfmpegProbe] && t.raised.None?
    ensures t.raised.Some? ==> t.raised == Some(FileNotFoundError)
  {
    if host.run(FfmpegProbe).Completed? then Trace([Record(Info, "ffmpeg is already installed.")], [FfmpegProbe], None)
    else Then(Trace([Record(Warning, "ffmpeg is not installed.")], [FfmpegProbe], None), InstallDependencyTrace(host, "ffmpeg"))
  }

  /** `_check_dependency(name)`. */
  function CheckDependencyTrace(host: Host, name: string): (t: Trace)
    ensures |t.ran| <= 2
    ensures t.raised.Some? ==> t.raised == Some(FileNotFoundError)
  {
    if name == "yt-dlp" then CheckYtDlpTrace(host)
    else if name == "ffmpeg" then CheckFfmpegTrace(host)
    else Nothing
  }

  /** `_install_requirements` for the given path. */
  function InstallRequirementsTrace(host: Host, path: string): (t: Trace)
    ensures t.ran == [] <==> path !in host.fs.files && path !in host.fs.dirs
    ensures t.ran != [] ==> t.ran == [PipInstallRequirements(host, path)]
    ensures t.raised.Some? ==> t.raised == Some(FileNotFoundError)
  {
    if path !in host.fs.files && path !in host.fs.dirs then Trace([MissingRequirements(path)], [], None)
    else
      var install := RunCheckedTrace(host, PipInstallRequirements(host, path), [RequirementsInstalled(path)]);
      Then(Trace([AttemptingRequirements(path)], [], None), CatchCalledProcess(install, FailedRequirements(path)))
  }

  /** Python's truthiness of `requirements_path`: neither None nor empty. */
  predicate Truthy(path: Option<string>)
  {
    path.Some? && path.value != ""
  }

  /** `check_dependencies`. */
  function CheckDependenciesTrace(host: Host, requirementsPath: Option<string>): (t: Trace)
    ensures |t.ran| <= 4
    ensures t.raised.Some? ==> t.raised == Some(FileNotFoundError)
  {
    var checks := Then(CheckDependencyTrace(host, "yt-dlp"), CheckDependencyTrace(host, "ffmpeg"));
    if Truthy(requirementsPath) then Then(checks, InstallRequirementsTrace(host, requirementsPath.value)) else checks
  }

  /** `_install_ffmpeg` runs at most one command, and one exactly when a package manager was found. */
  lemma InstallFfmpegRunsAtMostOne(host: Host)
    ensures var t := InstallFfmpegTrace(host);
      var choice := SelectFfmpegInstaller(host.system, host.onPath);
      && |t.ran| <= 1
      && (t.ran != [] <==> choice.Command?)
      && (choice.Command? ==> t.ran == [choice.argv])
      && t.messages[0] == AttemptingFfmpeg
  {
  }

  /** Without a package manager only a warning is logged; on an unknown system nothing more at all. */
  lemma InstallFfmpegWithoutManager(host: Host)
    ensures var choice := SelectFfmpegInstaller(host.system, host.onPath);
      && (choice.Manual? ==> InstallFfmpegTrace(host) == Trace([AttemptingFfmpeg, Record(Warning, choice.warning)], [], None))
      && (choice.NoInstaller? ==> InstallFfmpegTrace(host) == Trace([AttemptingFfmpeg], [], None))
  {
  }

  /**
   * `install_dependency` never lets a CalledProcessError out: it is logged as an error
   * naming the dependency. Only a missing executable escapes.
   */
  lemma InstallDependencyCatches(host: Host, name: string)
    ensures var t := InstallDependencyTrace(host, name);
      && (t.raised.None? || t.raised == Some(FileNotFoundError))
      && t.messages[0] == Attempting(name)
  {
  }

  /** A failing pip install is reported with the exception's text. */
  lemma InstallDependencyReportsFailure(host: Host, message: string)
    requires host.run(PipInstall(host, "yt-dlp")) == NonZeroExit(message)
    ensures InstallDependencyTrace(host, "yt-dlp") ==
      Trace([Attempting("yt-dlp"), Record(Error, "Failed to install yt-dlp: " + message)], [PipInstall(host, "yt-dlp")], None)
  {
    assert FailedInstall("yt-dlp") == "Failed to install yt-dlp: ";
    var failed := Record(Error, "Failed to install yt-dlp: " + message);
    assert [Attempting("yt-dlp")] + ([] + [failed]) == [Attempting("yt-dlp"), failed];
    assert [] + [PipInstall(host, "yt-dlp")] == [PipInstall(host, "yt-dlp")];
  }

  /** A failing package-manager command is reported with the exception's text, after the two attempt lines. */
  lemma InstallFfmpegReportsFailure(host: Host, message: string)
    requires SelectFfmpegInstaller(host.system, host.onPath).Command?
    requires host.run(SelectFfmpegInstaller(host.system, host.onPath).argv) == NonZeroExit(message)
    ensures var t := InstallDependencyTrace(host, "ffmpeg");
      && t == Trace([Attempting("ffmpeg"), AttemptingFfmpeg, Record(Error, "Failed to install ffmpeg: " + message)],
                    [SelectFfmpegInstaller(host.system, host.onPath).argv], None)
  {
    var argv := SelectFfmpegInstaller(host.system, host.onPath).argv;
    var failed := Record(Error, "Failed to install ffmpeg: " + message);
    assert FailedInstall("ffmpeg") == "Failed to install ffmpeg: ";
    var installed := InstallFfmpegTrace(host);
    assert installed == Trace([AttemptingFfmpeg], [argv], Some(CalledProcessError(message)));
    var caught := CatchCalledProcess(installed, FailedInstall("ffmpeg"));
    assert caught == Trace([AttemptingFfmpeg, failed], [argv], None);
    assert [Attempting("ffmpeg")] + [AttemptingFfmpeg, failed] == [Attempting("ffmpeg"), AttemptingFfmpeg, failed];
    assert [] + [argv] == [argv];
  }

  /** Names other than yt-dlp and ffmpeg are not checked, and installing them only logs the attempt. */
  lemma UnknownDependency(host: Host, name: string)
    requires name != "yt-dlp" && name != "ffmpeg"
    ensures CheckDependencyTrace(host, name) == Nothing
    ensures InstallDependencyTrace(host, name) == Trace([Attempting(name)], [], None)
  {
  }

  /** An install is attempted exactly when the corresponding check fails. */
  lemma InstallOnlyWhenCheckFails(host: Host)
    ensures host.ytDlpImportable ==> CheckYtDlpTrace(host) == Log(Info, "yt-dlp is already installed.")
    ensures !host.ytDlpImportable ==>
      && CheckYtDlpTrace(host).ran == [PipInstall(host, "yt-dlp")]
      && CheckYtDlpTrace(host).messages[1] == Attempting("yt-dlp")
    ensures host.run(FfmpegProbe).Completed? ==>
      CheckFfmpegTrace(host) == Trace([Record(Info, "ffmpeg is already installed.")], [FfmpegProbe], None)
    ensures !host.run(FfmpegProbe).Completed? ==>
      && CheckFfmpegTrace(host).ran == [FfmpegProbe] + InstallFfmpegTrace(host).ran
      && CheckFfmpegTrace(host).messages[1] == Attempting("ffmpeg")
  {
  }

  /** A requirements file that does not exist is reported and pip is not run. */
  lemma MissingRequirementsFile(host: Host, path: string)
    requires path !in host.fs.files && path !in host.fs.dirs
    ensures InstallRequirementsTrace(host, path) == Trace([MissingRequirements(path)], [], None)
  {
  }

  /**
   * yt-dlp is checked before ffmpeg, and the requirements file comes last, only when
   * its path is truthy and neither check raised.
   */
  lemma CheckOrder(host: Host, requirementsPath: Option<string>)
    ensures var t := CheckDependenciesTrace(host, requirementsPath);
      var yt := CheckDependencyTrace(host, "yt-dlp");
      var ff := CheckDependencyTrace(host, "ffmpeg");
      && (yt.raised.Some? ==> t == yt)
      && (!Truthy(requirementsPath) ==> t == Then(yt, ff))
      && (yt.raised.None? ==> t.ran[..|yt.ran|] == yt.ran)
      && (yt.raised.None? && ff.raised.None? && Truthy(requirementsPath) ==>
            t.ran == yt.ran + ff.ran + InstallRequirementsTrace(host, requirementsPath.value).ran)
  {
  }

  class DependencyChecker {
    const logger: Logger
    const requirementsPath: Option<string>

    constructor (logger: Logger, requirementsPath: Option<string>)
      requires logger.Valid()
      modifies logger
      ensures this.logger == logger && this.requirementsPath == requirementsPath
      ensures logger.Valid() && logger.Logged([Record(Info, "DependencyChecker initialized.")])
    {
      this.logger := logger;
      this.requirementsPath := requirementsPath;
      logger.WriteInfo("DependencyChecker initialized.");
    }

    method CheckDependencies(host: Host) returns (ran: seq<Argv>, raised: Option<PyError>)
      requires logger.Valid()
      modifies logger
      ensures var t := CheckDependenciesTrace(host, requirementsPath);
        ran == t.ran && raised == t.raised && logger.Valid() && logger.Logged(t.messages)
    {
      ghost var w := logger.written;
      ghost var yt := CheckDependencyTrace(host, "yt-dlp");
      ghost var ff := CheckDependencyTrace(host, "ffmpeg");
      ran, raised := CheckDependency(host, "yt-dlp");
      if raised.Some? {
        return;
      }
      var more, failure := CheckDependency(host, "ffmpeg");
      ran, raised := ran + more, failure;
      Regroup(w, yt.messages, ff.messages);
      if raised.Some? || !(requirementsPath.Some? && requirementsPath.value != "") {
        return;
      }
      ghost var req := InstallRequirementsTrace(host, requirementsPath.value);
      more, failure := InstallRequirements(host);
      ran, raised := ran + more, failure;
      Regroup(w, yt.messages + ff.messages, req.messages);
    }

    method CheckDependency(host: Host, name: string) returns (ran: seq<Argv>, raised: Option<PyError>)
      requires logger.Valid()
      modifies logger
      ensures var t := CheckDependencyTrace(host, name);
        ran == t.ran && raised == t.raised && logger.Valid() && logger.Logged(t.messages)
    {
      if name == "yt-dlp" {
        ran, raised := CheckYtDlp(host);
      } else if name == "ffmpeg" {
        ran, raised := CheckFfmpeg(host);
      } else {
        ran, raised := [], None;
      }
    }

    method CheckYtDlp(host: Host) returns (ran: seq<Argv>, raised: Option<PyError>)
      requires logger.Valid()
      modifies logger
      ensures var t := CheckYtDlpTrace(host);
        ran == t.ran && raised == t.raised && logger.Valid() && logger.Logged(t.messages)
    {
      if host.ytDlpImportable {
        logger.WriteInfo("yt-dlp is already installed.");
        ran, raised := [], None;
      } else {
        ghost var w := logger.written;
        logger.WriteWarning("yt-dlp is not installed.");
        ran, raised := InstallDependency(host, "yt-dlp");
        Regroup(w, [Record(Warning, "yt-dlp is not installed.")], InstallDependencyTrace(host, "yt-dlp").messages);
      }
    }

    method CheckFfmpeg(host: Host) returns (ran: seq<Argv>, raised: Option<PyError>)
      requires logger.Valid()
      modifies logger
      ensures var t := CheckFfmpegTrace(host);
        ran == t.ran && raised == t.raised && logger.Valid() && logger.Logged(t.messages)
    {
      ran := [FfmpegProbe];
      if host.run(FfmpegProbe).Completed? {
        logger.WriteInfo("ffmpeg is already installed.");
        raised := None;
      } else {
        ghost var w := logger.written;
        logger.WriteWarning("ffmpeg is not installed.");
        var more;
        more, raised := InstallDependency(host, "ffmpeg");
        ran := ran + more;
        Regroup(w, [Record(Warning, "ffmpeg is not installed.")], InstallDependencyTrace(host, "ffmpeg").messages);
      }
    }

    method InstallDependency(host: Host, name: string) returns (ran: seq<Argv>, raised: Option<PyError>)
      requires logger.Valid()
      modifies logger
      ensures var t := InstallDependencyTrace(host, name);
        ran == t.ran && raised == t.raised && logger.Valid() && logger.Logged(t.messages)
    {
      ghost var w := logger.written;
      logger.WriteInfo(Attempting(name).message);
      ghost var w1 := logger.written;
      ghost var body: Trace;
      if name == "yt-dlp" {
        ran, raised := RunChecked(host, PipInstall(host, "yt-dlp"));
        if raised.None? {
          logger.WriteInfo("yt-dlp has been installed successfully.");
        }
        body := RunCheckedTrace(host, PipInstall(host, "yt-dlp"), [Record(Info, "yt-dlp has been installed successfully.")]);
      } else if name == "ffmpeg" {
        ran, raised := InstallFfmpeg(host);
        body := InstallFfmpegTrace(host);
      } else {
        ran, raised := [], None;
        body := Nothing;
      }
      assert logger.written == w1 + body.messages;
      if raised.Some? && raised.value.CalledProcessError? {
        logger.WriteError(FailedInstall(name) + raised.value.message);
        Regroup(w1, body.messages, [Record(Error, FailedInstall(name) + raised.value.message)]);
        raised := None;
      }
      Regroup(w, [Attempting(name)], CatchCalledProcess(body, FailedInstall(name)).messages);
    }

    method InstallFfmpeg(host: Host) returns (ran: seq<Argv>, raised: Option<PyError>)
      requires logger.Valid()
      modifies logger
      ensures var t := InstallFfmpegTrace(host);
        ran == t.ran && raised == t.raised && logger.Valid() && logger.Logged(t.messages)
    {
      ghost var w := logger.written;
      logger.WriteInfo(AttemptingFfmpeg.message);
      var choice := SelectFfmpegInstaller(host.system, host.onPath);
      match choice {
        case Command(_, argv, success) =>
          ran, raised := RunInstaller(host, argv, success);
          Regroup(w, [AttemptingFfmpeg], RunCheckedTrace(host, argv, [Record(Info, success)]).messages);
        case Manual(warning) =>
          logger.WriteWarning(warning);
          ran, raised := [], None;
        case NoInstaller =>
          ran, raised := [], None;
      }
    }

    /** Runs a package manager's install command and reports success. */
    method RunInstaller(host: Host, argv: Argv, success: string) returns (ran: seq<Argv>, raised: Option<PyError>)
      requires logger.Valid()
      modifies logger
      ensures var t := RunCheckedTrace(host, argv, [Record(Info, success)]);
        ran == t.ran && raised == t.raised && logger.Valid() && logger.Logged(t.messages)
    {
      ran, raised := RunChecked(host, argv);
      if raised.None? {
        logger.WriteInfo(success);
      }
    }

    /** `subprocess.run(argv, check=True)`: the exception it raises, if any. */
    method RunChecked(host: Host, argv: Argv) returns (ran: seq<Argv>, raised: Option<PyError>)
      ensures var t := RunCheckedTrace(host, argv, []);
        ran == t.ran && raised == t.raised
    {
      ran := [argv];
      match host.run(argv)
      case Completed => raised := None;
      case NonZeroExit(message) => raised := Some(CalledProcessError(message));
      case NotFound => raised := Some(FileNotFoundError);
    }

    /** `_install_requirements`, called only with a truthy path. */
    method InstallRequirements(host: Host) returns (ran: seq<Argv>, raised: Option<PyError>)
      requires requirementsPath.Some?
      requires logger.Valid()
      modifies logger
      ensures var t := InstallRequirementsTrace(host, requirementsPath.value);
        ran == t.ran && raised == t.raised && logger.Valid() && logger.Logged(t.messages)
    {
      var path := requirementsPath.value;
      if path !in host.fs.files && path !in host.fs.dirs {
        logger.WriteError(MissingRequirements(path).message);
        ran, raised := [], None;
        return;
      }
      ghost var w := logger.written;
      logger.WriteInfo(AttemptingRequirements(path).message);
      ghost var w1 := logger.written;
      ran, raised := RunChecked(host, PipInstallRequirements(host, path));
      ghost var install := RunCheckedTrace(host, PipInstallRequirements(host, path), [RequirementsInstalled(path)]);
      if raised.None? {
        logger.WriteInfo(RequirementsInstalled(path).message);
      } else if raised.value.CalledProcessError? {
        logger.WriteError(FailedRequirements(path) + raised.value.message);
        raised := None;
      }
      Regroup(w, [AttemptingRequirements(path)], CatchCalledProcess(install, FailedRequirements(path)).messages);
    }
  }
}
