/** The Node.js installer (buildpacks/nodejs.go): the official binary tarball for the host
    platform, unpacked into the shared cache, and PATH / NODE_PATH set up for the package. */
module NodeJs {
  import opened Outcomes
  import opened Text
  import opened Host

  const DistMirror: string := "https://nodejs.org/dist"

  datatype NodeBuildTool = NodeBuildTool(version: string, spec: BuildToolSpec)

  function NewNodeBuildTool(spec: BuildToolSpec): (bt: NodeBuildTool)
    ensures bt.version == spec.version && bt.spec == spec
  {
    NodeBuildTool(spec.version, spec)
  }

  /** `node-v<version>-<os>-<arch>`, amd64 being called x64. */
  function PackageString(bt: NodeBuildTool, p: Platform): string
  {
    var arch := if p.arch == "amd64" then "x64" else p.arch;
    "node-v" + bt.version + "-" + p.os + "-" + arch
  }

  function InstallDir(bt: NodeBuildTool): string
  {
    Path(bt.spec.sharedCacheDir, "nodejs")
  }

  function NodeDir(bt: NodeBuildTool, p: Platform): string
  {
    Path(InstallDir(bt), PackageString(bt, p))
  }

  /** `<mirror>/v<version>/<package>.tar.gz`. */
  function DownloadUrl(bt: NodeBuildTool, p: Platform): string
  {
    DistMirror + "/v" + bt.version + "/" + PackageString(bt, p) + ".tar.gz"
  }

  /** The tarball is named after the directory `Install` looks for: the URL ends with the
      last element of `NodeDir` followed by ".tar.gz". */
  lemma DownloadNamesNodeDir(bt: NodeBuildTool, p: Platform)
    ensures var pkg := PackageString(bt, p);
      var url := DownloadUrl(bt, p);
      && |url| >= |pkg| + 7
      && url[|url| - |pkg| - 7..] == pkg + ".tar.gz"
      && NodeDir(bt, p)[|NodeDir(bt, p)| - |pkg|..] == pkg
  {
    var pkg := PackageString(bt, p);
    var url := DownloadUrl(bt, p);
    var head := DistMirror + "/v" + bt.version + "/";
    assert url == head + (pkg + ".tar.gz");
    var dir := InstallDir(bt);
    assert NodeDir(bt, p) == dir + "/" + pkg || NodeDir(bt, p) == pkg;
  }

  /** `Install`: nothing when the node directory exists; otherwise download the tarball and
      unpack it into the install directory, returning the first error. */
  function InstallResult(bt: NodeBuildTool, p: Platform, o: Oracle, w: World): (World, Option<Error>)
  {
    if NodeDir(bt, p) in w.dirs then (w, None)
    else
      var (w1, file) := Fetch(w, o, DownloadUrl(bt, p));
      if file.Err? then (w1, Some(file.error))
      else Attempt(w1, o, Unarchive(file.value, InstallDir(bt)))
  }

  method Install(bt: NodeBuildTool, m: Machine) returns (err: Option<Error>)
    modifies m
    ensures (m.State(), err) == InstallResult(bt, m.platform, m.oracle, old(m.State()))
  {
    var nodeDir := NodeDir(bt, m.platform);
    var installDir := InstallDir(bt);
    var nodePkgString := PackageString(bt, m.platform);
    var present := m.Exists(nodeDir);
    if present {
      return None;
    }
    var archiveFile := nodePkgString + ".tar.gz";
    var downloadUrl := DistMirror + "/v" + bt.version + "/" + archiveFile;
    assert downloadUrl == DownloadUrl(bt, m.platform);
    var localFile := m.DownloadFileWithCache(downloadUrl);
    if localFile.Err? {
      return Some(localFile.error);
    }
    err := m.Perform(Unarchive(localFile.value, installDir));
  }

  /** When the node directory is missing, `Install` downloads once and unpacks into the
      install directory only after a successful download, returning the first error. */
  lemma InstallEffects(bt: NodeBuildTool, p: Platform, o: Oracle, w: World)
    ensures var (w', err) := InstallResult(bt, p, o, w);
      var url := DownloadUrl(bt, p);
      var unpack := Unarchive(o.cached(url), InstallDir(bt));
      && w'.env == w.env
      && (NodeDir(bt, p) in w.dirs ==> w' == w && err.None?)
      && (NodeDir(bt, p) !in w.dirs && Download(url) in o.fails ==>
            err == Some(FailureOf(Download(url))) && w'.trail == w.trail + [Download(url)])
      && (NodeDir(bt, p) !in w.dirs && Download(url) !in o.fails ==>
            err == (if unpack in o.fails then Some(FailureOf(unpack)) else None)
            && w'.trail == w.trail + [Download(url), unpack])
  {
  }

  /** The tarball unpacks into the install directory, not into the node directory, so a second
      `Install` is a no-op only when the archive held the package directory. */
  lemma InstallIdempotent(bt: NodeBuildTool, p: Platform, o: Oracle, w: World)
    requires InstallResult(bt, p, o, w).1.None?
    requires NodeDir(bt, p) in w.dirs
      || NodeDir(bt, p) in o.creates(Unarchive(o.cached(DownloadUrl(bt, p)), InstallDir(bt)))
    ensures var w1 := InstallResult(bt, p, o, w).0;
      InstallResult(bt, p, o, w1) == (w1, None)
  {
    InstallEffects(bt, p, o, w);
  }

  /** `Setup`: node's bin directory, then NODE_PATH set to the package directory, then the
      package's `node_modules/.bin` put in front. */
  function SetupResult(bt: NodeBuildTool, p: Platform, w: World): World
  {
    var nodePath := bt.spec.packageDir;
    var w1 := PathPrepended(w, Path(NodeDir(bt, p), "bin"));
    var w2 := WithEnv(w1, "NODE_PATH", nodePath);
    PathPrepended(w2, Path(Path(nodePath, "node_modules"), ".bin"))
  }

  method Setup(bt: NodeBuildTool, m: Machine) returns (err: Option<Error>)
    modifies m
    ensures err.None?
    ensures m.State() == SetupResult(bt, m.platform, old(m.State()))
  {
    var nodeDir := NodeDir(bt, m.platform);
    var cmdPath := Path(nodeDir, "bin");
    m.PrependToPath(cmdPath);
    var nodePath := bt.spec.packageDir;
    m.Setenv("NODE_PATH", nodePath);
    var npmBinPath := Path(Path(nodePath, "node_modules"), ".bin");
    m.PrependToPath(npmBinPath);
    err := None;
  }

  /** After `Setup` the package's npm bin directory comes first on PATH, node's own bin
      directory second, then the old PATH; NODE_PATH is the package directory; nothing else
      changes. */
  lemma SetupEnvironment(bt: NodeBuildTool, p: Platform, w: World, key: string)
    ensures var w' := SetupResult(bt, p, w);
      var npmBin := Path(Path(bt.spec.packageDir, "node_modules"), ".bin");
      && EnvValue(w'.env, PathVar) == npmBin + ":" + Path(NodeDir(bt, p), "bin") + ":" + EnvValue(w.env, PathVar)
      && EnvValue(w'.env, "NODE_PATH") == bt.spec.packageDir
      && (key != PathVar && key != "NODE_PATH" ==> EnvValue(w'.env, key) == EnvValue(w.env, key))
      && w'.dirs == w.dirs && w'.trail == w.trail
  {
  }
}
