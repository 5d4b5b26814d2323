/** The OpenJDK installer (buildpacks/openjdk.go): version fields, install paths, the
    AdoptOpenJDK download URL, install-if-absent and the PATH / JAVA_HOME setup. */
module OpenJdk {
  import opened Outcomes
  import opened Text
  import opened Host

  datatype JavaBuildTool = JavaBuildTool(version: string, spec: BuildToolSpec)

  function NewJavaBuildTool(spec: BuildToolSpec): (bt: JavaBuildTool)
    ensures bt.version == spec.version && bt.spec == spec
  {
    JavaBuildTool(spec.version, spec)
  }

  /** The getters index the "."-split version and panic when a field is missing, so every
      member that reads the patch field needs three of them. */
  predicate HasPatchField(bt: JavaBuildTool)
  {
    |Split(bt.version, '.')| >= 3
  }

  function MajorVersion(bt: JavaBuildTool): string
  {
    Split(bt.version, '.')[0]
  }

  function MinorVersion(bt: JavaBuildTool): string
    requires |Split(bt.version, '.')| >= 2
  {
    Split(bt.version, '.')[1]
  }

  function PatchVersion(bt: JavaBuildTool): string
    requires HasPatchField(bt)
  {
    Split(bt.version, '.')[2]
  }

  /** Major, minor and patch are the first three "."-fields of the version, and no field holds
      a dot. */
  lemma VersionFields(bt: JavaBuildTool, major: string, minor: string, patch: string)
    requires '.' !in major && '.' !in minor && '.' !in patch
    requires bt.version == major + "." + minor + "." + patch
    ensures HasPatchField(bt)
    ensures MajorVersion(bt) == major && MinorVersion(bt) == minor && PatchVersion(bt) == patch
  {
    ThreeFields(major, minor, patch, '.');
  }

  function InstallDir(bt: JavaBuildTool): string
  {
    Path(bt.spec.sharedCacheDir, "java")
  }

  /** The release name AdoptOpenJDK gives a build: `jdk<major>u<minor>-b<patch>`. */
  function Release(bt: JavaBuildTool): string
    requires HasPatchField(bt)
  {
    "jdk" + MajorVersion(bt) + "u" + MinorVersion(bt) + "-b" + PatchVersion(bt)
  }

  /** The JDK home: the release directory under the install directory, and inside it the
      `Contents/Home` of the macOS bundle on darwin only. */
  function JavaDir(bt: JavaBuildTool, p: Platform): (dir: string)
    requires HasPatchField(bt)
    ensures InstallDir(bt) + "/" + Release(bt) <= dir
    ensures dir == InstallDir(bt) + "/" + Release(bt) + (if p.os == "darwin" then "/Contents/Home" else "")
  {
    var basePath := Path(InstallDir(bt), Release(bt));
    if p.os == "darwin" then Path(Path(basePath, "Contents"), "Home") else basePath
  }

  datatype JavaUrlParams = JavaUrlParams(
    os: string, arch: string, major: string, minor: string, patch: string, extension: string)

  /** The template data of the download URL: darwin is called "mac", Windows builds are zip
      archives and all others tarballs, and the architecture is always x64. */
  function DownloadParams(bt: JavaBuildTool, p: Platform): (d: JavaUrlParams)
    requires HasPatchField(bt)
    ensures d.arch == "x64"
    ensures d.extension == "zip" <==> p.os == "windows"
    ensures d.os == "mac" <==> p.os in {"darwin", "mac"}
    ensures p.os != "darwin" ==> d.os == p.os
  {
    var operatingSystem := if p.os == "darwin" then "mac" else p.os;
    var extension := if operatingSystem == "windows" then "zip" else "tar.gz";
    JavaUrlParams(operatingSystem, "x64", MajorVersion(bt), MinorVersion(bt), PatchVersion(bt), extension)
  }

  /** `OPENJDK_DIST_MIRROR` rendered with the template data. */
  function DownloadUrl(bt: JavaBuildTool, p: Platform): string
    requires HasPatchField(bt)
  {
    var d := DownloadParams(bt, p);
    var tag := "jdk" + d.major + "u" + d.minor + "-b" + d.patch;
    var asset := "OpenJDK" + d.major + "U-jdk_" + d.arch + "_" + d.os + "_hotspot_"
      + d.major + "u" + d.minor + "b" + d.patch + "." + d.extension;
    "https://github.com/AdoptOpenJDK/openjdk" + d.major + "-binaries/releases/download/" + tag + "/" + asset
  }

  /** The release the URL downloads is the release whose directory `Install` looks for. */
  lemma DownloadNamesRelease(bt: JavaBuildTool, p: Platform)
    requires HasPatchField(bt)
    ensures var url := DownloadUrl(bt, p);
      var prefix := "https://github.com/AdoptOpenJDK/openjdk" + MajorVersion(bt) + "-binaries/releases/download/";
      prefix + Release(bt) + "/" <= url
  {
    var d := DownloadParams(bt, p);
    var asset := "OpenJDK" + d.major + "U-jdk_" + d.arch + "_" + d.os + "_hotspot_"
      + d.major + "u" + d.minor + "b" + d.patch + "." + d.extension;
    var prefix := "https://github.com/AdoptOpenJDK/openjdk" + MajorVersion(bt) + "-binaries/releases/download/";
    assert DownloadUrl(bt, p) == (prefix + Release(bt) + "/") + asset;
  }

  /** `Install`: make the install directory; if the JDK home exists, nothing else; otherwise
      download the archive and unpack it into the install directory, returning the first error. */
  function InstallResult(bt: JavaBuildTool, p: Platform, o: Oracle, w: World): (World, Option<Error>)
    requires HasPatchField(bt)
  {
    var javaInstallDir := InstallDir(bt);
    var javaPath := JavaDir(bt, p);
    var w1 := WithDir(w, javaInstallDir);
    if javaPath in w1.dirs then (w1, None)
    else
      var (w2, file) := Fetch(w1, o, DownloadUrl(bt, p));
      if file.Err? then (w2, Some(file.error))
      else Attempt(w2, o, Unarchive(file.value, javaInstallDir))
  }

  method Install(bt: JavaBuildTool, m: Machine) returns (err: Option<Error>)
    requires HasPatchField(bt)
    modifies m
    ensures (m.State(), err) == InstallResult(bt, m.platform, m.oracle, old(m.State()))
  {
    var javaInstallDir := InstallDir(bt);
    var javaPath := JavaDir(bt, m.platform);
    m.MkdirAsNeeded(javaInstallDir);
    var present := m.Exists(javaPath);
    if present {
      return None;
    }
    var localFile := m.DownloadFileWithCache(DownloadUrl(bt, m.platform));
    if localFile.Err? {
      return Some(localFile.error);
    }
    err := m.Perform(Unarchive(localFile.value, javaInstallDir));
  }

  /** What `Install` does, case by case: when the JDK home exists it attempts nothing; otherwise
      it downloads once, returns a download error unchanged without unpacking, and otherwise
      unpacks the cached file into the install directory and returns what the unpack returned. */
  lemma InstallEffects(bt: JavaBuildTool, p: Platform, o: Oracle, w: World)
    requires HasPatchField(bt)
    ensures var (w', err) := InstallResult(bt, p, o, w);
      var url := DownloadUrl(bt, p);
      var unpack := Unarchive(o.cached(url), InstallDir(bt));
      && InstallDir(bt) in w'.dirs
      && w'.env == w.env
      && (JavaDir(bt, p) in w.dirs ==> err.None? && w'.trail == w.trail)
      && (JavaDir(bt, p) !in w.dirs && Download(url) in o.fails ==>
            err == Some(FailureOf(Download(url))) && w'.trail == w.trail + [Download(url)])
      && (JavaDir(bt, p) !in w.dirs && Download(url) !in o.fails ==>
            err == (if unpack in o.fails then Some(FailureOf(unpack)) else None)
            && w'.trail == w.trail + [Download(url), unpack])
  {
    assert JavaDir(bt, p) != InstallDir(bt) by {
      assert |JavaDir(bt, p)| > |InstallDir(bt)|;
    }
  }

  /** Install if absent: after an install that succeeded, and whose archive holds the release
      directory, a second install changes nothing and returns nil. */
  lemma InstallIdempotent(bt: JavaBuildTool, p: Platform, o: Oracle, w: World)
    requires HasPatchField(bt)
    requires InstallResult(bt, p, o, w).1.None?
    requires JavaDir(bt, p) in w.dirs
      || JavaDir(bt, p) in o.creates(Unarchive(o.cached(DownloadUrl(bt, p)), InstallDir(bt)))
    ensures var w1 := InstallResult(bt, p, o, w).0;
      InstallResult(bt, p, o, w1) == (w1, None)
  {
    var w1 := InstallResult(bt, p, o, w).0;
    assert JavaDir(bt, p) in w1.dirs;
    assert WithDir(w1, InstallDir(bt)) == w1;
  }

  /** `Setup`: PATH becomes `<JavaDir>/bin:<old PATH>` and JAVA_HOME the JDK home. */
  function SetupResult(bt: JavaBuildTool, p: Platform, w: World): World
    requires HasPatchField(bt)
  {
    var javaDir := JavaDir(bt, p);
    var w1 := WithEnv(w, PathVar, javaDir + "/bin" + ":" + EnvValue(w.env, PathVar));
    WithEnv(w1, "JAVA_HOME", javaDir)
  }

  method Setup(bt: JavaBuildTool, m: Machine) returns (err: Option<Error>)
    requires HasPatchField(bt)
    modifies m
    ensures err.None?
    ensures m.State() == SetupResult(bt, m.platform, old(m.State()))
  {
    var javaDir := JavaDir(bt, m.platform);
    var cmdPath := javaDir + "/bin";
    var currentPath := m.Getenv(PathVar);
    m.Setenv(PathVar, cmdPath + ":" + currentPath);
    m.Setenv("JAVA_HOME", javaDir);
    err := None;
  }

  /** After `Setup` the JDK's bin directory is the first PATH entry, the old PATH follows it,
      JAVA_HOME is the JDK home, and nothing else in the environment, the file system or the
      trail changes. */
  lemma SetupEnvironment(bt: JavaBuildTool, p: Platform, w: World, key: string)
    requires HasPatchField(bt)
    ensures var w' := SetupResult(bt, p, w);
      && EnvValue(w'.env, PathVar) == JavaDir(bt, p) + "/bin:" + EnvValue(w.env, PathVar)
      && EnvValue(w'.env, "JAVA_HOME") == JavaDir(bt, p)
      && (key != PathVar && key != "JAVA_HOME" ==> EnvValue(w'.env, key) == EnvValue(w.env, key))
      && w'.dirs == w.dirs && w'.trail == w.trail
  {
  }
}
