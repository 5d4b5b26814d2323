/** The Miniconda installer (buildpacks/anaconda.go): a Miniconda install per requested
    version in the package cache, for Python 2 or Python 3. */
module Anaconda {
  import opened Outcomes
  import opened Text
  import opened Host
  import opened Miniconda

  datatype AnacondaBuildTool = AnacondaBuildTool(version: string, spec: BuildToolSpec, pyCompatibleNum: nat)

  function NewAnaconda2BuildTool(spec: BuildToolSpec): (bt: AnacondaBuildTool)
    ensures bt.version == spec.version && bt.spec == spec && bt.pyCompatibleNum == 2
  {
    AnacondaBuildTool(spec.version, spec, 2)
  }

  function NewAnaconda3BuildTool(spec: BuildToolSpec): (bt: AnacondaBuildTool)
    ensures bt.version == spec.version && bt.spec == spec && bt.pyCompatibleNum == 3
  {
    AnacondaBuildTool(spec.version, spec, 3)
  }

  function InstallDir(bt: AnacondaBuildTool): string
  {
    Path(Path(bt.spec.packageCacheDir, "miniconda"), "miniconda-" + bt.version)
  }

  /** The template data: the tool's Python generation, the requested Miniconda version (or
      "latest" when none is given) and the renamed platform. */
  function DownloadParams(bt: AnacondaBuildTool, p: Platform): (d: CondaUrlParams)
    ensures d.pyNum == bt.pyCompatibleNum
    ensures d.version == if bt.version == "" then "latest" else bt.version
    ensures (d.os, d.arch, d.extension) == PlatformParams(p)
  {
    var version := if bt.version == "" then "latest" else bt.version;
    var (opsys, arch, extension) := PlatformParams(p);
    CondaUrlParams(bt.pyCompatibleNum, opsys, arch, version, extension)
  }

  function DownloadUrl(bt: AnacondaBuildTool, p: Platform): string
  {
    InstallerUrl(DownloadParams(bt, p))
  }

  /** The Python 2 and Python 3 tools built from one spec download different installers. */
  lemma GenerationsDownloadApart(spec: BuildToolSpec, p: Platform)
    ensures DownloadUrl(NewAnaconda2BuildTool(spec), p) != DownloadUrl(NewAnaconda3BuildTool(spec), p)
  {
    PyNumSelectsInstaller(DownloadParams(NewAnaconda2BuildTool(spec), p), DownloadParams(NewAnaconda3BuildTool(spec), p));
  }

  /** The two installer commands, run in the package directory. */
  function InstallerCommands(localFile: string, anacondaDir: string): seq<string>
  {
    ["chmod +x " + localFile, "bash " + localFile + " -b -p " + anacondaDir]
  }

  /** `Install`: nothing when the install directory exists; otherwise download the installer
      (returning a download error) and run chmod then bash, ignoring what they return. */
  function InstallResult(bt: AnacondaBuildTool, p: Platform, o: Oracle, w: World): (World, Option<Error>)
  {
    var anacondaDir := InstallDir(bt);
    if anacondaDir in w.dirs then (w, None)
    else
      var (w1, file) := Fetch(w, o, DownloadUrl(bt, p));
      if file.Err? then (w1, Some(file.error))
      else (ExecAll(w1, o, InstallerCommands(file.value, anacondaDir), bt.spec.packageDir), None)
  }

  method Install(bt: AnacondaBuildTool, m: Machine) returns (err: Option<Error>)
    modifies m
    ensures (m.State(), err) == InstallResult(bt, m.platform, m.oracle, old(m.State()))
  {
    var anacondaDir := InstallDir(bt);
    var setupDir := bt.spec.packageDir;
    var present := m.Exists(anacondaDir);
    if present {
      return None;
    }
    var localFile := m.DownloadFileWithCache(DownloadUrl(bt, m.platform));
    if localFile.Err? {
      return Some(localFile.error);
    }
    m.ExecEach(InstallerCommands(localFile.value, anacondaDir), setupDir);
    err := None;
  }

  /** `Install` returns an error exactly when the install directory is missing and the
      download fails; the installer commands run only after a successful download. */
  lemma InstallErrors(bt: AnacondaBuildTool, p: Platform, o: Oracle, w: World)
    ensures var (w', err) := InstallResult(bt, p, o, w);
      var url := DownloadUrl(bt, p);
      && w'.env == w.env
      && (err.Some? <==> InstallDir(bt) !in w.dirs && Download(url) in o.fails)
      && (err.Some? ==> err.value == FailureOf(Download(url)) && w'.trail == w.trail + [Download(url)])
      && (InstallDir(bt) in w.dirs ==> w' == w)
      && (InstallDir(bt) !in w.dirs && err.None? ==>
            w'.trail == w.trail + [Download(url)]
              + Commands(InstallerCommands(o.cached(url), InstallDir(bt)), bt.spec.packageDir, []))
  {
  }

  const SetupCommands: seq<string> :=
    ["conda config --set always_yes yes --set changeps1 no", "conda update -q conda"]

  /** `Setup`: put the install's bin directory first on PATH, then run the two conda commands
      in the package directory, ignoring what they return. */
  function SetupResult(bt: AnacondaBuildTool, o: Oracle, w: World): World
  {
    ExecAll(PathPrepended(w, Path(InstallDir(bt), "bin")), o, SetupCommands, bt.spec.packageDir)
  }

  method Setup(bt: AnacondaBuildTool, m: Machine) returns (err: Option<Error>)
    modifies m
    ensures err.None?
    ensures m.State() == SetupResult(bt, m.oracle, old(m.State()))
  {
    var installDir := InstallDir(bt);
    m.PrependToPath(Path(installDir, "bin"));
    var setupDir := bt.spec.packageDir;
    m.ExecEach(SetupCommands, setupDir);
    err := None;
  }

  /** After `Setup` the install's bin directory is the first PATH entry, and both conda
      commands were attempted in order whatever they returned. */
  lemma SetupEnvironment(bt: AnacondaBuildTool, o: Oracle, w: World)
    ensures var w' := SetupResult(bt, o, w);
      && EnvValue(w'.env, PathVar) == Path(InstallDir(bt), "bin") + ":" + EnvValue(w.env, PathVar)
      && w'.trail == w.trail + [Exec(SetupCommands[0], bt.spec.packageDir, []), Exec(SetupCommands[1], bt.spec.packageDir, [])]
  {
    var w' := SetupResult(bt, o, w);
    assert w'.trail == w.trail + Commands(SetupCommands, bt.spec.packageDir, []);
  }
}
