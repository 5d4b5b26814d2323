/** The Homebrew installer (build_homebrew.go): macOS only, a clone of the brew repository in
    the build root. */
module Homebrew {
  import opened Outcomes
  import opened Text
  import opened Host

  const BrewGitUrl: string := "https://github.com/Homebrew/brew.git"

  datatype HomebrewBuildTool = HomebrewBuildTool(version: string)

  /** The version is the second ":"-field of the tool spec; a spec without a ":" makes the
      source index past the end and panic. */
  function NewHomebrewBuildTool(toolSpec: string): (bt: HomebrewBuildTool)
    requires |Split(toolSpec, ':')| >= 2
    ensures ':' !in bt.version
  {
    var parts := Split(toolSpec, ':');
    HomebrewBuildTool(parts[1])
  }

  /** `brew:<version>` yields that version. */
  lemma ToolSpecVersion(name: string, version: string)
    requires ':' !in name && ':' !in version
    ensures |Split(name + ":" + version, ':')| >= 2
    ensures NewHomebrewBuildTool(name + ":" + version).version == version
  {
    TwoFields(name, version, ':');
  }

  /** `<build root>/homebrew`; the build root comes from the loaded workspace. */
  function InstallDir(buildRoot: string): string
  {
    Path(buildRoot, "homebrew")
  }

  function HomebrewDir(buildRoot: string): string
  {
    Path(InstallDir(buildRoot), "brew")
  }

  /** `InstallPlatformDependencies` does nothing and returns nil. */
  function InstallPlatformDependencies(bt: HomebrewBuildTool): (err: Option<Error>)
    ensures err.None?
  {
    None
  }

  /** `Install`: an error and no effect on anything but darwin; there, make the install
      directory and clone brew into it unless it is there, wrapping a clone error. */
  function InstallResult(buildRoot: string, p: Platform, o: Oracle, w: World): (World, Option<Error>)
  {
    if p.os != "darwin" then (w, Some(Plain("Homebrew not supported on " + p.os + " platform")))
    else
      var brewDir := HomebrewDir(buildRoot);
      var w1 := WithDir(w, InstallDir(buildRoot));
      if brewDir in w1.dirs then (w1, None)
      else
        var (w2, e) := Attempt(w1, o, Clone(BrewGitUrl, brewDir));
        if e.Some? then (w2, Some(Wrapped("Couldn't clone brew: ", e.value, "\n"))) else (w2, None)
  }

  method Install(bt: HomebrewBuildTool, buildRoot: string, m: Machine) returns (err: Option<Error>)
    modifies m
    ensures (m.State(), err) == InstallResult(buildRoot, m.platform, m.oracle, old(m.State()))
  {
    if m.platform.os != "darwin" {
      return Some(Plain("Homebrew not supported on " + m.platform.os + " platform"));
    }
    var installDir := InstallDir(buildRoot);
    var brewDir := HomebrewDir(buildRoot);
    m.MkdirAsNeeded(installDir);
    var _ := InstallPlatformDependencies(bt);
    var present := m.Exists(brewDir);
    if present {
      return None;
    }
    var cloneErr := m.Perform(Clone(BrewGitUrl, brewDir));
    if cloneErr.Some? {
      return Some(Wrapped("Couldn't clone brew: ", cloneErr.value, "\n"));
    }
    err := None;
  }

  /** On another platform `Install` fails and touches nothing. On darwin it fails exactly when
      the clone is attempted and fails, with the clone's message inside; when it succeeds the
      brew directory exists, so a second `Install` does nothing. */
  lemma InstallOutcome(buildRoot: string, p: Platform, o: Oracle, w: World)
    ensures var (w', err) := InstallResult(buildRoot, p, o, w);
      var clone := Clone(BrewGitUrl, HomebrewDir(buildRoot));
      && (p.os != "darwin" ==>
            w' == w && err.Some? && Message(err.value) == "Homebrew not supported on " + p.os + " platform")
      && (p.os == "darwin" ==>
            && InstallDir(buildRoot) in w'.dirs
            && (err.Some? <==> HomebrewDir(buildRoot) !in w.dirs + {InstallDir(buildRoot)} && clone in o.fails)
            && (err.Some? ==> Message(err.value) == "Couldn't clone brew: " + Message(FailureOf(clone)) + "\n")
            && (err.None? ==> HomebrewDir(buildRoot) in w'.dirs && InstallResult(buildRoot, p, o, w') == (w', None)))
  {
    if p.os == "darwin" {
      var w1 := WithDir(w, InstallDir(buildRoot));
      var (w', err) := InstallResult(buildRoot, p, o, w);
      if err.None? {
        assert HomebrewDir(buildRoot) in w'.dirs;
        assert WithDir(w', InstallDir(buildRoot)) == w';
      }
    }
  }

  /** `Setup`: brew's bin directory goes first on PATH. */
  function SetupResult(buildRoot: string, w: World): World
  {
    PathPrepended(w, Path(HomebrewDir(buildRoot), "bin"))
  }

  method Setup(bt: HomebrewBuildTool, buildRoot: string, m: Machine) returns (err: Option<Error>)
    modifies m
    ensures err.None?
    ensures m.State() == SetupResult(buildRoot, old(m.State()))
  {
    var brewDir := HomebrewDir(buildRoot);
    var brewBinDir := Path(brewDir, "bin");
    m.PrependToPath(brewBinDir);
    err := None;
  }

  /** After `Setup` brew's bin directory is the first PATH entry and the old PATH follows. */
  lemma SetupEnvironment(buildRoot: string, w: World, key: string)
    ensures var w' := SetupResult(buildRoot, w);
      && EnvValue(w'.env, PathVar) == Path(HomebrewDir(buildRoot), "bin") + ":" + EnvValue(w.env, PathVar)
      && (key != PathVar ==> EnvValue(w'.env, key) == EnvValue(w.env, key))
      && w'.dirs == w.dirs && w'.trail == w.trail
  {
  }
}
