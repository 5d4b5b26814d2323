/** The Heroku CLI installer (internal/buildpack/heroku.go): the standalone CLI tarball for the
    host platform, unpacked into a per-version directory of the cache. */
module Heroku {
  import opened Outcomes
  import opened Text
  import opened Host

  /** The construction parameters this installer reads (`buildToolSpec` of that package). */
  datatype HerokuSpec = HerokuSpec(version: string, cacheDir: string)

  datatype HerokuBuildTool = HerokuBuildTool(version: string, spec: HerokuSpec)

  function NewHerokuBuildTool(spec: HerokuSpec): (bt: HerokuBuildTool)
    ensures bt.version == spec.version && bt.spec == spec
  {
    HerokuBuildTool(spec.version, spec)
  }

  /** The Apache-style archive name; nothing downloads it. */
  function ArchiveFile(bt: HerokuBuildTool): string
  {
    "apache-heroku-" + bt.version + "-bin.tar.gz"
  }

  /** `herokuDistMirror` rendered with the platform: amd64 is called x64. */
  function DownloadUrl(bt: HerokuBuildTool, p: Platform): string
  {
    var arch := if p.arch == "amd64" then "x64" else p.arch;
    "https://cli-assets.heroku.com/heroku-" + p.os + "-" + arch + ".tar.gz"
  }

  /** The URL names no version: every requested version downloads the same tarball. */
  lemma DownloadIgnoresVersion(a: HerokuBuildTool, b: HerokuBuildTool, p: Platform)
    ensures DownloadUrl(a, p) == DownloadUrl(b, p)
  {
  }

  function MajorVersion(bt: HerokuBuildTool): string
  {
    Split(bt.version, '.')[0]
  }

  /** The major version is the first dot-separated field. */
  lemma MajorVersionField(bt: HerokuBuildTool, major: string, rest: string)
    requires '.' !in major && bt.version == major + "." + rest
    ensures MajorVersion(bt) == major
  {
    SplitFirst(major, '.', rest);
  }

  /** `<cacheDir>/heroku-<version>`, a plain string concatenation. */
  function HerokuDir(bt: HerokuBuildTool): string
  {
    bt.spec.cacheDir + "/heroku-" + bt.version
  }

  /** `install`: nothing when the version directory exists; otherwise download the tarball and
      unpack it into the version directory, returning the first error. */
  function InstallResult(bt: HerokuBuildTool, p: Platform, o: Oracle, w: World): (World, Option<Error>)
  {
    var herokuDir := HerokuDir(bt);
    if herokuDir in w.dirs then (w, None)
    else
      var (w1, file) := Fetch(w, o, DownloadUrl(bt, p));
      if file.Err? then (w1, Some(file.error))
      else Attempt(w1, o, Unarchive(file.value, herokuDir))
  }

  method Install(bt: HerokuBuildTool, m: Machine) returns (err: Option<Error>)
    modifies m
    ensures (m.State(), err) == InstallResult(bt, m.platform, m.oracle, old(m.State()))
  {
    var herokuDir := HerokuDir(bt);
    var present := m.Exists(herokuDir);
    if present {
      return None;
    }
    var localFile := m.DownloadFileWithCache(DownloadUrl(bt, m.platform));
    if localFile.Err? {
      return Some(localFile.error);
    }
    err := m.Perform(Unarchive(localFile.value, herokuDir));
  }

  /** `install` returns nil exactly when the version directory is there afterwards: either it
      was there, or the download and the unpack into it both succeeded. */
  lemma InstallSucceedsIffInstalled(bt: HerokuBuildTool, p: Platform, o: Oracle, w: World)
    ensures var (w', err) := InstallResult(bt, p, o, w);
      var url := DownloadUrl(bt, p);
      && (err.None? <==>
            HerokuDir(bt) in w.dirs
            || (Download(url) !in o.fails && Unarchive(o.cached(url), HerokuDir(bt)) !in o.fails))
      && (err.None? ==> HerokuDir(bt) in w'.dirs)
      && w'.env == w.env
  {
  }

  /** After a successful `install` a second one does nothing. */
  lemma InstallIdempotent(bt: HerokuBuildTool, p: Platform, o: Oracle, w: World)
    requires InstallResult(bt, p, o, w).1.None?
    ensures var w1 := InstallResult(bt, p, o, w).0;
      InstallResult(bt, p, o, w1) == (w1, None)
  {
    InstallSucceedsIffInstalled(bt, p, o, w);
  }

  /** `setup`: PATH becomes `<HerokuDir>/heroku/bin:<old PATH>`. */
  function SetupResult(bt: HerokuBuildTool, w: World): World
  {
    WithEnv(w, PathVar, HerokuDir(bt) + "/heroku/bin" + ":" + EnvValue(w.env, PathVar))
  }

  method Setup(bt: HerokuBuildTool, m: Machine) returns (err: Option<Error>)
    modifies m
    ensures err.None?
    ensures m.State() == SetupResult(bt, old(m.State()))
  {
    var herokuDir := HerokuDir(bt);
    var cmdPath := herokuDir + "/heroku/bin";
    var currentPath := m.Getenv(PathVar);
    m.Setenv(PathVar, cmdPath + ":" + currentPath);
    err := None;
  }

  /** After `setup` the CLI's bin directory inside the unpacked tree is the first PATH entry,
      the old PATH follows, and nothing else changes. */
  lemma SetupEnvironment(bt: HerokuBuildTool, w: World, key: string)
    ensures var w' := SetupResult(bt, w);
      && EnvValue(w'.env, PathVar) == HerokuDir(bt) + "/heroku/bin:" + EnvValue(w.env, PathVar)
      && (key != PathVar ==> EnvValue(w'.env, key) == EnvValue(w.env, key))
      && w'.dirs == w.dirs && w'.trail == w.trail
  {
  }
}
