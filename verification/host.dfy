/** The host a toolchain installer acts on. The file system is the set of paths that exist,
    the process environment a map, and every external effect (a download, an unpack, a
    command, a clone) is appended to a trail. Which effects fail and which paths a successful
    effect creates are decided by an `Oracle`, so the installers can be reasoned about for
    every outcome of the collaborators they call. */
module Host {
  import opened Outcomes
  import opened Text

  /** `runtime.GOOS` / `runtime.GOARCH` as the installers read them. */
  datatype Platform = Platform(os: string, arch: string)

  /** The installer's construction parameters (the `BuildToolSpec` record). */
  datatype BuildToolSpec = BuildToolSpec(
    tool: string,
    version: string,
    sharedCacheDir: string,
    packageCacheDir: string,
    packageDir: string)

  datatype Action =
    | Download(url: string)
    | Unarchive(file: string, dest: string)
    | Exec(command: string, dir: string, env: seq<string>)
    | Clone(url: string, dest: string)

  datatype World = World(dirs: set<string>, env: map<string, string>, trail: seq<Action>)

  /** `fails`: the effects that return an error. `creates`: the paths a successful effect
      leaves behind besides the destination of an unpack or a clone. `cached`: the local file
      `DownloadFileWithCache` returns for a URL (the same file for the same URL). */
  datatype Oracle = Oracle(
    fails: set<Action>,
    creates: Action -> set<string>,
    cached: string -> string)

  const PathVar: string := "PATH"

  /** `os.Getenv`: the empty string for an unset variable. */
  function EnvValue(env: map<string, string>, key: string): string
  {
    if key in env then env[key] else ""
  }

  function Describe(a: Action): string
  {
    match a
    case Download(url) => "download " + url
    case Unarchive(file, dest) => "unarchive " + file + " into " + dest
    case Exec(command, dir, _) => "run " + command + " in " + dir
    case Clone(url, dest) => "clone " + url + " into " + dest
  }

  /** The error an effect in `fails` returns. */
  function FailureOf(a: Action): Error
  {
    Failed(Describe(a))
  }

  /** The paths a successful effect leaves behind. */
  function Made(o: Oracle, a: Action): set<string>
  {
    match a
    case Unarchive(_, dest) => o.creates(a) + {dest}
    case Clone(_, dest) => o.creates(a) + {dest}
    case _ => o.creates(a)
  }

  /** `MkdirAsNeeded(path)`. */
  function WithDir(w: World, path: string): World
  {
    w.(dirs := w.dirs + {path})
  }

  /** Attempting one effect: it is recorded; it either fails with its error and leaves the file
      system as it was, or succeeds and leaves what it makes. */
  function Attempt(w: World, o: Oracle, a: Action): (r: (World, Option<Error>))
    ensures r.0.trail == w.trail + [a] && r.0.env == w.env
    ensures r.1 == (if a in o.fails then Some(FailureOf(a)) else None)
    ensures r.0.dirs == if a in o.fails then w.dirs else w.dirs + Made(o, a)
  {
    var recorded := w.(trail := w.trail + [a]);
    if a in o.fails then (recorded, Some(FailureOf(a)))
    else (recorded.(dirs := w.dirs + Made(o, a)), None)
  }

  /** `DownloadFileWithCache(url)`: the cached local file, or the download error. */
  function Fetch(w: World, o: Oracle, url: string): (r: (World, Result<string>))
    ensures r.0 == Attempt(w, o, Download(url)).0
    ensures r.1 == if Download(url) in o.fails then Err(FailureOf(Download(url))) else Ok(o.cached(url))
  {
    var (w', e) := Attempt(w, o, Download(url));
    if e.Some? then (w', Err(e.value)) else (w', Ok(o.cached(url)))
  }

  /** `os.Setenv(key, value)`. */
  function WithEnv(w: World, key: string, value: string): World
  {
    w.(env := w.env[key := value])
  }

  /** `PrependToPath(dir)`: PATH becomes `dir:<old PATH>`. */
  function PathPrepended(w: World, dir: string): World
  {
    WithEnv(w, PathVar, dir + ":" + EnvValue(w.env, PathVar))
  }

  /** The commands as the effects that running them in `dir` with `env` records. */
  function Commands(cmds: seq<string>, dir: string, env: seq<string>): (r: seq<Action>)
    ensures |r| == |cmds|
    ensures forall i :: 0 <= i < |cmds| ==> r[i] == Exec(cmds[i], dir, env)
  {
    seq(|cmds|, i requires 0 <= i < |cmds| => Exec(cmds[i], dir, env))
  }

  /** A `for` loop over `ExecToStdout` that drops every result: each command is attempted, in
      order, whatever the earlier ones returned. */
  function ExecAll(w: World, o: Oracle, cmds: seq<string>, dir: string): (r: World)
    ensures r.trail == w.trail + Commands(cmds, dir, [])
    ensures r.env == w.env
    ensures w.dirs <= r.dirs
    decreases |cmds|
  {
    if cmds == [] then w
    else
      var before := ExecAll(w, o, cmds[..|cmds| - 1], dir);
      CommandsSnoc(cmds, dir, []);
      Attempt(before, o, Exec(cmds[|cmds| - 1], dir, [])).0
  }

  /** A `for` loop over `ExecToStdoutWithEnv` that returns at the first error: the result holds
      the index of the command that failed, if one did. */
  function ExecUntilFailure(w: World, o: Oracle, cmds: seq<string>, dir: string, env: seq<string>)
    : (r: (World, Option<nat>))
    ensures r.0.env == w.env
    ensures r.1.Some? ==> r.1.value < |cmds|
    decreases |cmds|
  {
    if cmds == [] then (w, None)
    else
      var last := |cmds| - 1;
      var (before, failed) := ExecUntilFailure(w, o, cmds[..last], dir, env);
      if failed.Some? then (before, failed)
      else
        var (after, e) := Attempt(before, o, Exec(cmds[last], dir, env));
        (after, if e.Some? then Some(last) else None)
  }

  /** The commands before the one that failed succeeded, the ones after it never ran, and
      without a failure every command ran, in order. */
  lemma ExecUntilFailureOutcome(w: World, o: Oracle, cmds: seq<string>, dir: string, env: seq<string>)
    ensures var r := ExecUntilFailure(w, o, cmds, dir, env);
      && (r.1.None? ==>
            && r.0.trail == w.trail + Commands(cmds, dir, env)
            && forall i :: 0 <= i < |cmds| ==> Exec(cmds[i], dir, env) !in o.fails)
      && (r.1.Some? ==>
            && Exec(cmds[r.1.value], dir, env) in o.fails
            && (forall i :: 0 <= i < r.1.value ==> Exec(cmds[i], dir, env) !in o.fails)
            && r.0.trail == w.trail + Commands(cmds[..r.1.value + 1], dir, env))
  {
    if ExecUntilFailure(w, o, cmds, dir, env).1.None? {
      ExecUntilFailureRanAll(w, o, cmds, dir, env);
    } else {
      ExecUntilFailureStopped(w, o, cmds, dir, env);
    }
  }

  /** Without a failure every command ran, in order, and none of them fails. */
  lemma {:induction false} ExecUntilFailureRanAll(w: World, o: Oracle, cmds: seq<string>, dir: string, env: seq<string>)
    requires ExecUntilFailure(w, o, cmds, dir, env).1.None?
    ensures ExecUntilFailure(w, o, cmds, dir, env).0.trail == w.trail + Commands(cmds, dir, env)
    ensures forall i :: 0 <= i < |cmds| ==> Exec(cmds[i], dir, env) !in o.fails
    decreases |cmds|
  {
    if cmds != [] {
      var last := |cmds| - 1;
      var init := cmds[..last];
      ExecUntilFailureRanAll(w, o, init, dir, env);
      assert forall i :: 0 <= i < last ==> init[i] == cmds[i];
      CommandsSnoc(cmds, dir, env);
    }
  }

  /** After a failure the failing command is the reported one, all before it succeeded and
      none after it ran. */
  lemma {:induction false} ExecUntilFailureStopped(w: World, o: Oracle, cmds: seq<string>, dir: string, env: seq<string>)
    requires ExecUntilFailure(w, o, cmds, dir, env).1.Some?
    ensures var r := ExecUntilFailure(w, o, cmds, dir, env);
      && Exec(cmds[r.1.value], dir, env) in o.fails
      && (forall i :: 0 <= i < r.1.value ==> Exec(cmds[i], dir, env) !in o.fails)
      && r.0.trail == w.trail + Commands(cmds[..r.1.value + 1], dir, env)
    decreases |cmds|
  {
    var last := |cmds| - 1;
    var init := cmds[..last];
    var (before, failed) := ExecUntilFailure(w, o, init, dir, env);
    assert forall i :: 0 <= i < last ==> init[i] == cmds[i];
    if failed.Some? {
      ExecUntilFailureStopped(w, o, init, dir, env);
      assert init[..failed.value + 1] == cmds[..failed.value + 1];
    } else {
      ExecUntilFailureRanAll(w, o, init, dir, env);
      assert cmds[..last + 1] == cmds;
      CommandsSnoc(cmds, dir, env);
    }
  }

  lemma CommandsSnoc(cmds: seq<string>, dir: string, env: seq<string>)
    requires cmds != []
    ensures Commands(cmds, dir, env) == Commands(cmds[..|cmds| - 1], dir, env) + [Exec(cmds[|cmds| - 1], dir, env)]
  {
  }

  /** The machine an installer runs on: its file system, its process environment and the trail
      of effects it has attempted. */
  class Machine {
    var dirs: set<string>
    var env: map<string, string>
    var trail: seq<Action>
    const oracle: Oracle
    const platform: Platform

    function State(): World
      reads this
    {
      World(dirs, env, trail)
    }

    constructor (dirs: set<string>, env: map<string, string>, oracle: Oracle, platform: Platform)
      ensures State() == World(dirs, env, [])
      ensures this.oracle == oracle && this.platform == platform
    {
      this.dirs := dirs;
      this.env := env;
      this.trail := [];
      this.oracle := oracle;
      this.platform := platform;
    }

    /** `os.Stat(path)` returning no error. */
    method Exists(path: string) returns (present: bool)
      ensures present <==> path in dirs
    {
      present := path in dirs;
    }

    method MkdirAsNeeded(path: string)
      modifies this
      ensures State() == WithDir(old(State()), path)
    {
      dirs := dirs + {path};
    }

    method Perform(a: Action) returns (err: Option<Error>)
      modifies this
      ensures (State(), err) == Attempt(old(State()), oracle, a)
    {
      trail := trail + [a];
      if a in oracle.fails {
        err := Some(FailureOf(a));
      } else {
        dirs := dirs + Made(oracle, a);
        err := None;
      }
    }

    method DownloadFileWithCache(url: string) returns (file: Result<string>)
      modifies this
      ensures (State(), file) == Fetch(old(State()), oracle, url)
    {
      var err := Perform(Download(url));
      if err.Some? {
        file := Err(err.value);
      } else {
        file := Ok(oracle.cached(url));
      }
    }

    method Getenv(key: string) returns (value: string)
      ensures value == EnvValue(env, key)
    {
      value := if key in env then env[key] else "";
    }

    method Setenv(key: string, value: string)
      modifies this
      ensures State() == WithEnv(old(State()), key, value)
    {
      env := env[key := value];
    }

    method PrependToPath(dir: string)
      modifies this
      ensures State() == PathPrepended(old(State()), dir)
    {
      var current := Getenv(PathVar);
      Setenv(PathVar, dir + ":" + current);
    }

    /** Runs every command in order and ignores what each returns. */
    method ExecEach(cmds: seq<string>, dir: string)
      modifies this
      ensures State() == ExecAll(old(State()), oracle, cmds, dir)
    {
      for i := 0 to |cmds|
        invariant State() == ExecAll(old(State()), oracle, cmds[..i], dir)
      {
        assert cmds[..i + 1][..i] == cmds[..i];
        var _ := Perform(Exec(cmds[i], dir, []));
      }
      assert cmds[..|cmds|] == cmds;
    }

    /** Runs the commands in order and stops at the first that fails, returning its index. */
    method ExecInOrder(cmds: seq<string>, dir: string, extraEnv: seq<string>) returns (failed: Option<nat>)
      modifies this
      ensures (State(), failed) == ExecUntilFailure(old(State()), oracle, cmds, dir, extraEnv)
    {
      for i := 0 to |cmds|
        invariant (State(), None) == ExecUntilFailure(old(State()), oracle, cmds[..i], dir, extraEnv)
      {
        assert cmds[..i + 1][..i] == cmds[..i];
        var err := Perform(Exec(cmds[i], dir, extraEnv));
        if err.Some? {
          failed := Some(i);
          if i + 1 < |cmds| {
            ExecUntilFailureStops(old(State()), oracle, cmds, dir, extraEnv, i + 1);
          } else {
            assert cmds[..i + 1] == cmds;
          }
          return;
        }
      }
      assert cmds[..|cmds|] == cmds;
      failed := None;
    }
  }

  /** Once a prefix of the commands has failed, the longer lists fail at the same command and
      attempt nothing more. */
  lemma {:induction false} ExecUntilFailureStops(w: World, o: Oracle, cmds: seq<string>, dir: string, env: seq<string>, n: nat)
    requires 0 < n <= |cmds|
    requires ExecUntilFailure(w, o, cmds[..n], dir, env).1.Some?
    ensures ExecUntilFailure(w, o, cmds, dir, env) == ExecUntilFailure(w, o, cmds[..n], dir, env)
    decreases |cmds| - n
  {
    if n < |cmds| {
      var p := cmds[..n + 1];
      assert p[..|p| - 1] == cmds[..n];
      assert ExecUntilFailure(w, o, p, dir, env) == ExecUntilFailure(w, o, cmds[..n], dir, env);
      ExecUntilFailureStops(w, o, cmds, dir, env, n + 1);
    } else {
      assert cmds[..n] == cmds;
    }
  }
}
