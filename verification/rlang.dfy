/** The R installer (buildpacks/build_r.go): download the source tarball from CRAN, unpack
    it once, and configure, build and install R into the shared cache. */
module RLang {
  import opened Outcomes
  import opened Text
  import opened Host

  const DistMirror: string := "https://cloud.r-project.org/src/base"

  datatype RLangBuildTool = RLangBuildTool(version: string, spec: BuildToolSpec)

  function NewRLangBuildTool(spec: BuildToolSpec): (bt: RLangBuildTool)
    ensures bt.version == spec.version && bt.spec == spec
  {
    RLangBuildTool(spec.version, spec)
  }

  function ArchiveFile(bt: RLangBuildTool): string
  {
    "R-" + bt.version + ".tar.gz"
  }

  /** The text before the first dot of the version (all of it when there is none). */
  function MajorVersion(bt: RLangBuildTool): (major: string)
    ensures major <= bt.version && '.' !in major
    ensures major == bt.version || bt.version[|major|] == '.'
  {
    var parts := Split(bt.version, '.');
    SplitPrefix(bt.version, '.');
    parts[0]
  }

  /** The first piece of a split is the text up to the first separator. */
  lemma {:induction false} SplitPrefix(s: string, sep: char)
    ensures Split(s, sep)[0] <= s
    ensures Split(s, sep)[0] == s || s[|Split(s, sep)[0]|] == sep
    decreases |s|
  {
    if s != [] && s[0] != sep {
      SplitPrefix(s[1..], sep);
    }
  }

  /** The CRAN URL: `<mirror>/R-<major>/R-<version>.tar.gz`. */
  function DownloadUrl(bt: RLangBuildTool): string
  {
    DistMirror + "/R-" + MajorVersion(bt) + "/" + ArchiveFile(bt)
  }

  /** Versions of one major release are fetched from the same directory of the mirror. */
  lemma SameMajorSameDirectory(a: RLangBuildTool, b: RLangBuildTool, major: string, restA: string, restB: string)
    requires '.' !in major
    requires a.version == major + "." + restA && b.version == major + "." + restB
    ensures MajorVersion(a) == major && MajorVersion(b) == major
    ensures var dir := DistMirror + "/R-" + major + "/";
      dir <= DownloadUrl(a) && dir <= DownloadUrl(b)
  {
    SplitFirst(major, '.', restA);
    SplitFirst(major, '.', restB);
  }

  function InstallDir(bt: RLangBuildTool): string
  {
    Path(bt.spec.sharedCacheDir, "R")
  }

  function RLangDir(bt: RLangBuildTool): string
  {
    Path(InstallDir(bt), "R-" + bt.version)
  }

  function SourceDir(bt: RLangBuildTool): string
  {
    Path(Path(InstallDir(bt), "src"), "R-" + bt.version)
  }

  /** The build commands, run in the unpacked source directory. */
  function BuildCommands(bt: RLangBuildTool): seq<string>
  {
    ["./configure --with-x=no --prefix=" + RLangDir(bt), "make", "make install"]
  }

  /** `Install`: nothing when R is installed; otherwise download the tarball, unpack it into
      `src` unless its source directory exists (returning a download or unpack error), make
      the install directory, and run configure, make and make install, ignoring what they
      return. */
  function InstallResult(bt: RLangBuildTool, o: Oracle, w: World): (World, Option<Error>)
  {
    var rlangDir := RLangDir(bt);
    if rlangDir in w.dirs then (w, None)
    else
      var (w1, file) := Fetch(w, o, DownloadUrl(bt));
      if file.Err? then (w1, Some(file.error))
      else
        var tmpDir := Path(InstallDir(bt), "src");
        var (w2, unpackErr) :=
          if SourceDir(bt) in w1.dirs then (w1, None)
          else Attempt(w1, o, Unarchive(file.value, tmpDir));
        if unpackErr.Some? then (w2, unpackErr)
        else (ExecAll(WithDir(w2, rlangDir), o, BuildCommands(bt), SourceDir(bt)), None)
  }

  method Install(bt: RLangBuildTool, m: Machine) returns (err: Option<Error>)
    modifies m
    ensures (m.State(), err) == InstallResult(bt, m.oracle, old(m.State()))
  {
    var installDir := InstallDir(bt);
    var rlangDir := RLangDir(bt);
    var present := m.Exists(rlangDir);
    if present {
      return None;
    }
    var localFile := m.DownloadFileWithCache(DownloadUrl(bt));
    if localFile.Err? {
      return Some(localFile.error);
    }
    var tmpDir := Path(installDir, "src");
    var srcDir := Path(tmpDir, "R-" + bt.version);
    var unpacked := m.Exists(srcDir);
    if !unpacked {
      var unpackErr := m.Perform(Unarchive(localFile.value, tmpDir));
      if unpackErr.Some? {
        return unpackErr;
      }
    }
    m.MkdirAsNeeded(rlangDir);
    m.ExecEach(BuildCommands(bt), srcDir);
    err := None;
  }

  /** The errors `Install` returns are the download's and the unpack's; the build commands'
      results are dropped. An installed R is left alone, and an unpacked source tree is not
      unpacked again; after the tree is in place configure, make and make install run in it. */
  lemma InstallErrors(bt: RLangBuildTool, o: Oracle, w: World)
    ensures var (w', err) := InstallResult(bt, o, w);
      var url := DownloadUrl(bt);
      var unpack := Unarchive(o.cached(url), Path(InstallDir(bt), "src"));
      var build := Commands(BuildCommands(bt), SourceDir(bt), []);
      && w'.env == w.env
      && (RLangDir(bt) in w.dirs ==> (w', err) == (w, None))
      && (RLangDir(bt) !in w.dirs ==>
            && (Download(url) in o.fails ==>
                  err == Some(FailureOf(Download(url))) && w'.trail == w.trail + [Download(url)])
            && (Download(url) !in o.fails && SourceDir(bt) !in w.dirs + o.creates(Download(url)) ==>
                  && err == (if unpack in o.fails then Some(FailureOf(unpack)) else None)
                  && (unpack in o.fails ==> w'.trail == w.trail + [Download(url), unpack])
                  && (unpack !in o.fails ==> w'.trail == w.trail + [Download(url), unpack] + build))
            && (Download(url) !in o.fails && SourceDir(bt) in w.dirs + o.creates(Download(url)) ==>
                  err.None? && w'.trail == w.trail + [Download(url)] + build))
  {
    var url := DownloadUrl(bt);
    var unpack := Unarchive(o.cached(url), Path(InstallDir(bt), "src"));
    var (w', err) := InstallResult(bt, o, w);
    if RLangDir(bt) !in w.dirs && Download(url) !in o.fails
       && SourceDir(bt) !in w.dirs + o.creates(Download(url)) && unpack !in o.fails {
      var w2 := Attempt(Fetch(w, o, url).0, o, unpack).0;
      assert w2.trail == w.trail + [Download(url), unpack];
      assert w'.trail == w2.trail + Commands(BuildCommands(bt), SourceDir(bt), []);
    }
  }

  /** The install directory is made before the build runs, so once `Install` has returned
      nil the next `Install` does nothing, even when the build itself failed. */
  lemma InstallOnce(bt: RLangBuildTool, o: Oracle, w: World)
    requires InstallResult(bt, o, w).1.None?
    ensures var w1 := InstallResult(bt, o, w).0;
      RLangDir(bt) in w1.dirs && InstallResult(bt, o, w1) == (w1, None)
  {
  }

  /** `Setup`: PATH becomes `<RLangDir>/bin:<old PATH>`. */
  function SetupResult(bt: RLangBuildTool, w: World): World
  {
    WithEnv(w, PathVar, RLangDir(bt) + "/bin" + ":" + EnvValue(w.env, PathVar))
  }

  method Setup(bt: RLangBuildTool, m: Machine) returns (err: Option<Error>)
    modifies m
    ensures err.None?
    ensures m.State() == SetupResult(bt, old(m.State()))
  {
    var rlangDir := RLangDir(bt);
    var cmdPath := rlangDir + "/bin";
    var currentPath := m.Getenv(PathVar);
    m.Setenv(PathVar, cmdPath + ":" + currentPath);
    err := None;
  }

  /** After `Setup` R's bin directory is the first PATH entry, the old PATH follows, and
      nothing else changes. */
  lemma SetupEnvironment(bt: RLangBuildTool, w: World, key: string)
    ensures var w' := SetupResult(bt, w);
      && EnvValue(w'.env, PathVar) == RLangDir(bt) + "/bin:" + EnvValue(w.env, PathVar)
      && (key != PathVar ==> EnvValue(w'.env, key) == EnvValue(w.env, key))
      && w'.dirs == w.dirs && w'.trail == w.trail
  {
  }
}
