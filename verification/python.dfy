/** The conda-based Python installer (buildpacks/python.go): one shared Miniconda 4.7.10
    install, and a per-package conda environment for the requested Python version. */
module Python {
  import opened Outcomes
  import opened Text
  import opened Host
  import opened Miniconda

  const AnacondaToolVersion: string := "4.7.10"

  datatype PythonBuildTool = PythonBuildTool(version: string, spec: BuildToolSpec)

  function NewPythonBuildTool(spec: BuildToolSpec): (bt: PythonBuildTool)
    ensures bt.version == spec.version && bt.spec == spec
  {
    PythonBuildTool(spec.version, spec)
  }

  /** The shared Miniconda install, the same for every requested Python version. */
  function AnacondaInstallDir(bt: PythonBuildTool): string
  {
    Path(Path(bt.spec.sharedCacheDir, "miniconda3"), "miniconda-" + AnacondaToolVersion)
  }

  /** The per-package environment of the requested Python version. */
  function EnvironmentDir(bt: PythonBuildTool): string
  {
    Path(Path(bt.spec.packageCacheDir, "conda-python"), bt.version)
  }

  /** Two tools with the same shared cache use one Miniconda install, whatever versions they
      ask for; with a package cache, distinct versions get distinct environments. */
  lemma InstallSharedAcrossVersions(a: PythonBuildTool, b: PythonBuildTool)
    requires a.spec.sharedCacheDir == b.spec.sharedCacheDir
    ensures AnacondaInstallDir(a) == AnacondaInstallDir(b)
    ensures a.spec.packageCacheDir == b.spec.packageCacheDir != "" && a.version != b.version
              && a.version != "" && b.version != ""
            ==> EnvironmentDir(a) != EnvironmentDir(b)
  {
    if a.spec.packageCacheDir == b.spec.packageCacheDir != "" && a.version != b.version
       && a.version != "" && b.version != "" {
      var base := Path(a.spec.packageCacheDir, "conda-python");
      assert EnvironmentDir(a) == base + "/" + a.version;
      assert EnvironmentDir(b) == base + "/" + b.version;
      assert EnvironmentDir(a)[|base| + 1..] == a.version;
      assert EnvironmentDir(b)[|base| + 1..] == b.version;
    }
  }

  /** The template data: Python 3 and the pinned Miniconda version always. The requested
      version, defaulted to "latest" when empty, is computed and not used. */
  function DownloadParams(bt: PythonBuildTool, p: Platform): (d: CondaUrlParams)
    ensures d.pyNum == 3 && d.version == AnacondaToolVersion
    ensures (d.os, d.arch, d.extension) == PlatformParams(p)
  {
    var version := if bt.version == "" then "latest" else bt.version;
    var (opsys, arch, extension) := PlatformParams(p);
    CondaUrlParams(3, opsys, arch, AnacondaToolVersion, extension)
  }

  function DownloadUrl(bt: PythonBuildTool, p: Platform): string
  {
    InstallerUrl(DownloadParams(bt, p))
  }

  /** The download does not depend on the requested Python version. */
  lemma DownloadIgnoresVersion(a: PythonBuildTool, b: PythonBuildTool, p: Platform)
    ensures DownloadUrl(a, p) == DownloadUrl(b, p)
  {
  }

  /** The two installer commands, run in the package directory. */
  function InstallerCommands(localFile: string, anacondaDir: string): seq<string>
  {
    ["chmod +x " + localFile, "bash " + localFile + " -b -p " + anacondaDir]
  }

  /** `Install`: nothing when the Miniconda install exists; otherwise download the installer
      (returning a download error) and run chmod then bash, ignoring what they return. */
  function InstallResult(bt: PythonBuildTool, p: Platform, o: Oracle, w: World): (World, Option<Error>)
  {
    var anacondaDir := AnacondaInstallDir(bt);
    if anacondaDir in w.dirs then (w, None)
    else
      var (w1, file) := Fetch(w, o, DownloadUrl(bt, p));
      if file.Err? then (w1, Some(file.error))
      else (ExecAll(w1, o, InstallerCommands(file.value, anacondaDir), bt.spec.packageDir), None)
  }

  method Install(bt: PythonBuildTool, m: Machine) returns (err: Option<Error>)
    modifies m
    ensures (m.State(), err) == InstallResult(bt, m.platform, m.oracle, old(m.State()))
  {
    var anacondaDir := AnacondaInstallDir(bt);
    var setupDir := bt.spec.packageDir;
    var present := m.Exists(anacondaDir);
    if present {
      return None;
    }
    var localFile := m.DownloadFileWithCache(DownloadUrl(bt, m.platform));
    if localFile.Err? {
      return Some(localFile.error);
    }
    m.ExecEach(InstallerCommands(localFile.value, anacondaDir), setupDir);
    err := None;
  }

  /** `Install` returns an error only when the download fails; a failing chmod or bash is not
      reported. When Miniconda is present it attempts nothing. */
  lemma InstallErrors(bt: PythonBuildTool, p: Platform, o: Oracle, w: World)
    ensures var (w', err) := InstallResult(bt, p, o, w);
      var url := DownloadUrl(bt, p);
      && (AnacondaInstallDir(bt) in w.dirs ==> w' == w && err.None?)
      && (AnacondaInstallDir(bt) !in w.dirs ==>
            && err == (if Download(url) in o.fails then Some(FailureOf(Download(url))) else None)
            && (err.None? ==>
                  w'.trail == w.trail + [Download(url)]
                    + Commands(InstallerCommands(o.cached(url), AnacondaInstallDir(bt)), bt.spec.packageDir, [])))
  {
  }

  /** The three conda commands that create the environment. */
  function EnvironmentCommands(bt: PythonBuildTool): seq<string>
  {
    var condaBin := Path(Path(AnacondaInstallDir(bt), "bin"), "conda");
    [ condaBin + " config --set always_yes yes --set changeps1 no",
      condaBin + " update -q conda",
      condaBin + " create --prefix " + EnvironmentDir(bt) + " python=" + bt.version ]
  }

  /** The extra environment the conda commands run with: Miniconda's bin first on PATH. */
  function CondaEnv(bt: PythonBuildTool, w: World): seq<string>
  {
    ["PATH=" + Path(AnacondaInstallDir(bt), "bin") + ":" + EnvValue(w.env, PathVar)]
  }

  /** `Setup`: when the environment is missing, run the conda commands in order and return
      `Unable to run '<cmd>': <err>` for the first that fails, leaving PATH alone; otherwise
      put the environment's bin directory first on PATH. */
  function SetupResult(bt: PythonBuildTool, o: Oracle, w: World): (World, Option<Error>)
  {
    var envDir := EnvironmentDir(bt);
    var cmds := EnvironmentCommands(bt);
    var extra := CondaEnv(bt, w);
    var (w1, failed) :=
      if envDir in w.dirs then (w, None)
      else ExecUntilFailure(w, o, cmds, bt.spec.packageDir, extra);
    if failed.Some? then
      var cmd := cmds[failed.value];
      (w1, Some(Wrapped("Unable to run '" + cmd + "': ", FailureOf(Exec(cmd, bt.spec.packageDir, extra)), "")))
    else
      (PathPrepended(w1, Path(envDir, "bin")), None)
  }

  method Setup(bt: PythonBuildTool, m: Machine) returns (err: Option<Error>)
    modifies m
    ensures (m.State(), err) == SetupResult(bt, m.oracle, old(m.State()))
  {
    var condaDir := AnacondaInstallDir(bt);
    var envDir := EnvironmentDir(bt);
    var present := m.Exists(envDir);
    if !present {
      var currentPath := m.Getenv(PathVar);
      var newPath := "PATH=" + Path(condaDir, "bin") + ":" + currentPath;
      var setupDir := bt.spec.packageDir;
      var cmds := EnvironmentCommands(bt);
      var failed := m.ExecInOrder(cmds, setupDir, [newPath]);
      if failed.Some? {
        var cmd := cmds[failed.value];
        return Some(Wrapped("Unable to run '" + cmd + "': ", FailureOf(Exec(cmd, setupDir, [newPath])), ""));
      }
    }
    m.PrependToPath(Path(envDir, "bin"));
    err := None;
  }

  /** `Setup` fails exactly when one of the conda commands fails. It then names the first
      failing command, wraps that command's own error, has run none after it and leaves the
      environment as it was; when it succeeds, the environment's bin directory is first on
      PATH and the old PATH follows. */
  lemma SetupOutcome(bt: PythonBuildTool, o: Oracle, w: World)
    ensures var (w', err) := SetupResult(bt, o, w);
      var cmds := EnvironmentCommands(bt);
      var extra := CondaEnv(bt, w);
      && (err.Some? <==>
            EnvironmentDir(bt) !in w.dirs
            && exists i :: 0 <= i < |cmds| && Exec(cmds[i], bt.spec.packageDir, extra) in o.fails)
      && (err.Some? ==>
            && w'.env == w.env
            && exists i :: 0 <= i < |cmds| && err.value.prefix == "Unable to run '" + cmds[i] + "': "
                 && Exec(cmds[i], bt.spec.packageDir, extra) in o.fails
                 && (forall j :: 0 <= j < i ==> Exec(cmds[j], bt.spec.packageDir, extra) !in o.fails)
                 && err.value.cause == FailureOf(Exec(cmds[i], bt.spec.packageDir, extra))
                 && w'.trail == w.trail + Commands(cmds[..i + 1], bt.spec.packageDir, extra))
      && (err.None? ==>
            EnvValue(w'.env, PathVar) == Path(EnvironmentDir(bt), "bin") + ":" + EnvValue(w.env, PathVar))
      && (EnvironmentDir(bt) in w.dirs ==> w'.trail == w.trail)
  {
    var cmds := EnvironmentCommands(bt);
    var extra := CondaEnv(bt, w);
    if EnvironmentDir(bt) !in w.dirs {
      ExecUntilFailureOutcome(w, o, cmds, bt.spec.packageDir, extra);
      var (w1, failed) := ExecUntilFailure(w, o, cmds, bt.spec.packageDir, extra);
      if failed.Some? {
        assert Exec(cmds[failed.value], bt.spec.packageDir, extra) in o.fails;
      }
    }
  }
}
