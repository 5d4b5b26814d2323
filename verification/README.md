# yb orchestration core in Dafny

A model of the orchestration logic of `yb`, a build tool that runs a package's build targets
in containers and installs the toolchains they need. Three parts are modelled.

- **The build driver and the trace sink** of the `build` command. `Driver` models these:
  - targets run in order and the first failure stops the list;
  - a Docker network is made at most once per target list and removed once on every exit;
  - each target's biome, and the biome its setup returns, are closed through deferred calls in reverse order;
  - a failed close is only logged;
  - the corrected and the as-written failure return of `run` (see Findings).

  `Trace` models the in-memory span sink:
  - spans are filed as roots or under their parent, in arrival order;
  - the dump is a recursive pre-order table of span names indented by depth;
  - the table is cut off at depth 3 with a `...` line.
- **The container manager** (`Containers`):
  - the `<package>-<image>` container name, shared by lookup and creation;
  - image reference parsing and pull-if-absent;
  - bind-mount translation and port copying;
  - container creation and exec;
  - the find-or-create loop of a service context.

  The Docker daemon is a class. Its state is its containers, its image labels, and the pulls
  and exec sessions it has been asked for. A `DockerFaults` value fixes which calls fail.
- **The toolchain installers** (`OpenJdk`, `Python`, `Anaconda`, `RLang`, `Heroku`, `NodeJs`,
  `Homebrew`, sharing `Miniconda`). Each models:
  - version splitting, install paths and download URLs;
  - "install if absent";
  - the PATH changes of `Setup`.

  The host is a `Machine` (`Host`) with three parts:
  - the set of existing paths;
  - the process environment;
  - a trail of external effects (downloads, unpacks, commands, clones).

  An `Oracle` decides which effects fail and what they create.

Every method that changes state is tied by its `ensures` to a specification function of the
old state. The properties are lemmas about those functions. `Outcomes` holds Option, Result
and the wrapped-error chain. `Text` holds Go's `strings.Split`, `strings.Join`,
`filepath.Join` and padding, with the split/join round trip proved.

## Model

| member | source | states |
|---|---|---|
| Driver.Driver.DoTarget | cmd/yb/build.go:187-234 | The events and the error are those of `TargetRun`. It makes the biome, defers its close, computes the phase deps and runs setup, then defers the exec biome's close. It returns after setup with `setupOnly`, otherwise executes, and runs the deferred closes last-in first-out on every path after the biome exists |
| Driver.TargetOutcome | cmd/yb/build.go:187-234 | A biome failure reads `target <name>: <cause>`. Phase-dependency and setup errors are returned unchanged. With `setupOnly` nothing executes and a successful setup gives nil. Otherwise execute runs with the exec prefix and the network id, and its error is returned as is. The result is nil iff setup succeeded and (`setupOnly` or execute succeeded) |
| Driver.TargetCloses | cmd/yb/build.go:192-222 | Once the biome exists it is closed exactly once, as the last event, recording its own failure. The exec biome is closed exactly once, just before it, iff setup succeeded, and never otherwise |
| Driver.CloseErrorsNotReturned | cmd/yb/build.go:192-222 | Two oracles that differ only in which closes fail give the same `doTarget` result: a close failure is only logged |
| Driver.UnwindOrder | cmd/yb/build.go:192-222 | The two deferred closes run in reverse registration order: the exec biome first, then the biome |
| Driver.UnwoundReverses | cmd/yb/build.go:192-222 | Any stack of deferred calls runs each call once, last-registered first: the i-th event is the cleanup of the i-th call from the top |
| Driver.Driver.RunDeferred | cmd/yb/build.go:175-222 | Runs a stack of deferred calls last-registered first; the new events are `Unwound(stack)` |
| Driver.Driver.DoEach | cmd/yb/build.go:178-184 | The loop's events and result are `RunTargets`: targets in order, stopping at and returning the first error |
| Driver.RunTargetsFirstFailure | cmd/yb/build.go:178-183 | The loop succeeds iff every target does. On failure the error is that of some target k whose predecessors all succeeded, and the run equals the run of the first k+1 targets (later targets never start) |
| Driver.RunTargetsEvents | cmd/yb/build.go:178-205 | Running targets never creates or removes a network, and every setup runs on the network id of the options |
| Driver.ListCloseErrorsNotReturned | cmd/yb/build.go:178-222 | Close failures never change the result of the target loop |
| Driver.Driver.DoTargetList | cmd/yb/build.go:154-185 | The events and the error are those of `TargetListRun`. An empty list returns nil; a network is made when a client is present and no id is set, and its failure is returned first; the targets run with the new id; the network is removed after the loop |
| Driver.NetworkLifecycle | cmd/yb/build.go:154-184 | No targets gives no events and nil. A needed network that fails gives that error and no target event. A made network is created first and removed last, once each, with every setup on it, and the result is the loop's. Without a needed network, no network event happens |
| Driver.FailFast | cmd/yb/build.go:166-183 | Once the network exists, a failing list returns the first failing target's error; all targets before it succeeded and the list's run equals that of its prefix through the failing target |
| Driver.ListSucceeds | cmd/yb/build.go:154-184 | `doTargetList` returns nil iff the needed network (if any) is made and every target succeeds |
| Driver.OrderError | cmd/yb/build.go:108-111 | A build-order error reads `<cause>\nValid build targets: <targets joined by ", ">` |
| Driver.Driver.RunAsWritten | cmd/yb/build.go:107-143 | `run` from the build order on, as written: the build-order error is wrapped and returned; a failed build returns `err`, which is nil there |
| Driver.RunAsWrittenHidesFailure | cmd/yb/build.go:137-139 | For one target whose execute fails, `doTargetList` returns that error yet `run` as written returns nil |
| Driver.Driver.Run | cmd/yb/build.go:107-143 | `run` returning the build's own error on failure |
| Driver.RunReportsFailure | cmd/yb/build.go:118-143 | Corrected `run` has the same events as written, returns the order error or the build error, and returns nil iff the order and the build both succeed |
| Trace.TraceSink.constructor | cmd/yb/build.go:236-241 | The zero value is an empty sink |
| Trace.TraceSink.ExportSpan | cmd/yb/build.go:244-255 | The new state is `Exported(old state, span)` |
| Trace.Exported | cmd/yb/build.go:244-255 | Exporting appends the span to the list of its parent (the roots for the invalid id) and leaves every other parent's list unchanged |
| Trace.ExportGroups | cmd/yb/build.go:244-255 | After exporting a sequence into an empty sink, each parent's list is exactly the spans naming it, in arrival order |
| Trace.ArrivalOrderAcrossParents | cmd/yb/build.go:244-255 | Two arrival orders that agree per parent produce the same dump rows |
| Trace.TraceSink.Dump | cmd/yb/build.go:265-276 | The dump is the padded header line followed by the rendered rows of the root forest |
| Trace.TraceSink.DumpLocked | cmd/yb/build.go:278-304 | Appends exactly the rendering of `Rows(state, parent, depth)` |
| Trace.TraceSink.DumpList | cmd/yb/build.go:294-303 | Appends, for each span of the list in order, its line followed by its subtree one level deeper |
| Trace.TraceSink.DumpSpan | cmd/yb/build.go:295-302 | Appends one span's line, then its subtree at depth+1 |
| Trace.WriteSpaces | cmd/yb/build.go:314-318 | Appends exactly n blanks |
| Trace.WriteElided | cmd/yb/build.go:285-290 | Appends the cut-off line: column-width blanks, the depth's indentation, `...` |
| Trace.ElidedLineShape | cmd/yb/build.go:286-290 | The cut-off line is 45 + 2·depth blanks followed by `...\n` |
| Trace.RowsDepths | cmd/yb/build.go:284-303 | No row is shallower than the starting depth, every span row is above depth 3, and `...` rows sit at the cut-off depth |
| Trace.ListAtItsDepth | cmd/yb/build.go:294-303 | The rows at a list's own depth are exactly that list's spans in order; subtrees lie deeper |
| Trace.RootsInOrder | cmd/yb/build.go:273-283 | The top level of the dump is the root spans in export order |
| Trace.RowsDependOnLists | cmd/yb/build.go:278-303 | The rows depend only on the per-parent lists |
| Trace.CutOffExample | cmd/yb/build.go:284-302 | A four-deep chain renders three span rows at depths 0-2 and one `...` row at depth 3 |
| Text.Split | containers.go:164 | A split has at least one piece, no piece holds the separator, and joining the pieces gives the input back |
| Text.SplitJoin | containers.go:47-48 | Separator-free pieces joined with the separator split back to the same pieces |
| Text.PadRight | cmd/yb/build.go:267-271 | `%-*s`: the result starts with the text and is padded with spaces on the right to the width |
| Text.PadLeft | cmd/yb/build.go:296-299 | `%*s`: the result ends with the text and is padded with spaces on the left to the width |
| Containers.ContainerNameIgnoresTag | containers.go:47-49 | The container name is `<package>-<image>` whatever the tag, so two tags of one image share a container |
| Containers.FindAfterCreate | containers.go:200-202 | Lookup and creation derive the same name: right after a successful `NewContainer`, `FindContainer` returns the created container |
| Containers.Named | containers.go:51-57 | The name-filtered listing holds only containers with that name, drawn from the daemon, and is empty iff none has the name |
| Containers.Docker.ListContainers | containers.go:54-57 | A list error or the name-filtered listing |
| Containers.Docker.InspectContainer | containers.go:65 | An inspect error for a faulty id, otherwise the container |
| Containers.Docker.FindContainer | containers.go:42-75 | Returns `FindIn`: nothing on a list error, an empty list or an inspect error, otherwise the first listed container |
| Containers.FindInSound | containers.go:59-73 | A found container exists and has the derived name; with no daemon errors, one is found iff a container has that name |
| Containers.ImageRefTagged | containers.go:112-118 | `name:tag` pulls that tag; an untagged name pulls `latest` |
| Containers.ImageRefRegistryPort | containers.go:112-118 | A reference with three `:` fields pulls the first field with tag `latest` |
| Containers.Docker.PullImage | containers.go:105-150 | The new daemon state and the error are those of `PullIn` |
| Containers.PullInEffects | containers.go:124-148 | A list error returns without pulling; it pulls once only when no image carries the label; the error is set iff the listing or that pull fails; nothing else changes; a second call pulls again |
| Containers.CreateIn | containers.go:255-264 | A successful creation returns an id that no container already held |
| Containers.Docker.CreateContainer | containers.go:255-264 | Creation fails for a refused or taken name; otherwise adds one container under an id no existing container has |
| Containers.IdleCommandSplit | containers.go:241 | The idle command splits into `tail`, `-f`, `/dev/null` |
| Containers.MountsShape | containers.go:210-234 | One mount per spec plus one: spec `src:dst` mounts `<buildRoot>/<pkg>/<src>` on `dst`, all are binds, and the last binds the package path on `/build` |
| Containers.BuildMounts | containers.go:210-234 | Returns `MountsOf(opts)` and makes exactly each spec's host directory |
| Containers.CopyPorts | containers.go:236-239 | The ports are the specs, unchanged and in order |
| Containers.Docker.NewContainer | containers.go:198-273 | Daemon, host, container and error are those of `NewContainerResult` |
| Containers.NewContainerOutcome | containers.go:198-273 | Fails iff the name is refused or taken, whatever the pull did, returning the empty container and adding none; otherwise adds exactly one container under the derived name with image, idle command, ports and mounts, and returns its id, name and options |
| Containers.ExecArgv | containers.go:164-173 | The exec argv is the space-split command line: no argument holds a space and joining them gives the line back; working dir `/build`, the container's id |
| Containers.Docker.ExecToStdout | containers.go:160-196 | Create then start the exec session, returning the first error; only a created session is recorded |
| Containers.SetupNetwork | containers.go:299-314 | The stub returns an empty id and no error |
| Containers.Cleanup | containers.go:316-330 | The stub returns no error |
| Containers.Docker.Ensure | containers.go:343-353 | One definition: nothing when found, otherwise `NewContainer`, whose error is returned |
| Containers.Docker.StandUp | containers.go:332-405 | Makes the package and log dirs, then find-or-create per definition in the visit order, returning the first create error; state equals `StandUpResult` |
| Containers.StandUpProvides | containers.go:340-353 | After a StandUp that returned nil, every visited definition has a container under its derived name |
| Containers.StandUpGrows | containers.go:340-353 | StandUp never removes a container |
| Containers.StandUpStops | containers.go:348-351 | After a create error the rest of the visit order does nothing |
| Host.Machine.Exists | buildpacks/openjdk.go:129 | `os.Stat` succeeds iff the path exists |
| Host.Machine.MkdirAsNeeded | buildpacks/openjdk.go:127 | Adds the path and changes nothing else |
| Host.Machine.Perform | buildpacks/openjdk.go:141-145 | Records the effect; on failure returns its error and leaves the paths, otherwise adds what it makes |
| Host.Machine.DownloadFileWithCache | buildpacks/openjdk.go:136-140 | Records the download and returns the cached file or the download error |
| Host.Machine.Getenv | buildpacks/openjdk.go:73 | The variable's value, empty when unset |
| Host.Machine.Setenv | buildpacks/openjdk.go:76-78 | Sets one variable |
| Host.Machine.PrependToPath | buildpacks/anaconda.go:127 | PATH becomes `dir:<old PATH>` |
| Host.ExecAll | buildpacks/anaconda.go:66-72 | Every command is attempted in order whatever it returns; the environment is unchanged and no path disappears |
| Host.Machine.ExecEach | buildpacks/anaconda.go:66-72 | The state is `ExecAll` of the commands |
| Host.Machine.ExecInOrder | buildpacks/python.go:133-143 | The state and the failing index are `ExecUntilFailure` |
| Host.ExecUntilFailureOutcome | buildpacks/python.go:133-143 | Without a failure every command ran in order and none fails. With one, the reported command fails, all before it succeeded, and the trail ends at it |
| Host.ExecUntilFailureStops | buildpacks/python.go:139-142 | Once a prefix has failed, longer lists fail at the same command and attempt nothing more |
| Miniconda.PlatformParams | buildpacks/python.go:85-100 | amd64 is renamed x86_64; darwin becomes MacOSX, linux Linux and windows Windows; the extension is `exe` iff the OS is windows and `sh` otherwise; an unlisted OS keeps its name |
| Miniconda.PyNumSelectsInstaller | buildpacks/anaconda.go:19 | Python 2 and Python 3 installer URLs differ |
| OpenJdk.NewJavaBuildTool | buildpacks/openjdk.go:27-34 | Copies the version and the spec |
| OpenJdk.VersionFields | buildpacks/openjdk.go:40-53 | Major, minor and patch are the three `.`-fields of the version |
| OpenJdk.JavaDir | buildpacks/openjdk.go:59-68 | `<InstallDir>/jdk<maj>u<min>-b<patch>`, plus `/Contents/Home` on darwin only |
| OpenJdk.DownloadParams | buildpacks/openjdk.go:83-110 | Arch is always x64; the extension is zip iff the OS is windows; the OS is `mac` iff it was darwin (or mac) and otherwise unchanged |
| OpenJdk.DownloadNamesRelease | buildpacks/openjdk.go:19 | The URL downloads from the release tag whose directory `Install` looks for |
| OpenJdk.Install | buildpacks/openjdk.go:123-151 | State and error are `InstallResult` |
| OpenJdk.InstallEffects | buildpacks/openjdk.go:123-151 | The install dir exists afterwards. A present JDK means nothing attempted and nil. A download error is returned without unpacking. Otherwise it unpacks the cached file and returns the unpack's result |
| OpenJdk.InstallIdempotent | buildpacks/openjdk.go:129-130 | After a successful install that produced the JDK dir, a second install changes nothing |
| OpenJdk.Setup | buildpacks/openjdk.go:70-81 | Returns nil; the state is `SetupResult` |
| OpenJdk.SetupEnvironment | buildpacks/openjdk.go:70-81 | PATH is `<JavaDir>/bin:<old PATH>`, JAVA_HOME is the JDK home, nothing else changes |
| Python.NewPythonBuildTool | buildpacks/python.go:22-29 | Copies the version and the spec |
| Python.InstallSharedAcrossVersions | buildpacks/python.go:35-41 | The Miniconda dir is the same for every version; distinct versions get distinct environment dirs |
| Python.DownloadParams | buildpacks/python.go:75-119 | PyNum 3 and the pinned 4.7.10, whatever version is requested; platform renamed as `PlatformParams` |
| Python.DownloadIgnoresVersion | buildpacks/python.go:79-114 | The URL does not depend on the requested version |
| Python.Install | buildpacks/python.go:43-73 | State and error are `InstallResult` |
| Python.InstallErrors | buildpacks/python.go:43-73 | Nothing when Miniconda exists; otherwise the error is the download's, and after a good download chmod then bash run in order, their errors dropped |
| Python.Setup | buildpacks/python.go:121-151 | State and error are `SetupResult` |
| Python.SetupOutcome | buildpacks/python.go:121-151 | Fails iff the env is missing and a conda command fails. Then the error is `Unable to run '<cmd>': <cause>` for the first failing command: that command failed, every earlier one succeeded, the cause is its own error, none after it ran, and the environment is unchanged. On success the env's bin leads PATH |
| Anaconda.NewAnaconda2BuildTool | buildpacks/anaconda.go:21-29 | Python generation 2, version and spec copied |
| Anaconda.NewAnaconda3BuildTool | buildpacks/anaconda.go:31-39 | Python generation 3, version and spec copied |
| Anaconda.DownloadParams | buildpacks/anaconda.go:79-123 | PyNum is the tool's generation, an empty version becomes `latest`, the platform is renamed as `PlatformParams` |
| Anaconda.GenerationsDownloadApart | buildpacks/anaconda.go:106-120 | The Python 2 and Python 3 tools of one spec download different installers |
| Anaconda.Install | buildpacks/anaconda.go:49-77 | State and error are `InstallResult` |
| Anaconda.InstallErrors | buildpacks/anaconda.go:49-77 | The error is set iff the dir is missing and the download fails. A present dir means nothing happens. After a good download chmod then bash run in order |
| Anaconda.Setup | buildpacks/anaconda.go:125-140 | Returns nil; state is `SetupResult` |
| Anaconda.SetupEnvironment | buildpacks/anaconda.go:125-140 | The install's bin leads PATH, then both conda commands are attempted in order |
| RLang.NewRLangBuildTool | buildpacks/build_r.go:22-29 | Copies the version and the spec |
| RLang.MajorVersion | buildpacks/build_r.go:44-47 | The major version is the version's prefix up to its first dot |
| RLang.SameMajorSameDirectory | buildpacks/build_r.go:35-47 | Versions of one major release download from `<mirror>/R-<major>/` |
| RLang.Install | buildpacks/build_r.go:74-111 | State and error are `InstallResult` |
| RLang.InstallErrors | buildpacks/build_r.go:74-111 | An installed R means nothing happens. Otherwise a download error is returned; the source is unpacked only when its dir is absent, and an unpack error is returned; once the source is in place configure, make and make install run in it, in that order, their errors dropped |
| RLang.InstallOnce | buildpacks/build_r.go:78-102 | After an install that returned nil, the R dir exists and a second install does nothing |
| RLang.Setup | buildpacks/build_r.go:61-71 | Returns nil; state is `SetupResult` |
| RLang.SetupEnvironment | buildpacks/build_r.go:61-71 | PATH is `<RLangDir>/bin:<old PATH>`, nothing else changes |
| Heroku.NewHerokuBuildTool | internal/buildpack/heroku.go:23-30 | Copies the version and the spec |
| Heroku.DownloadIgnoresVersion | internal/buildpack/heroku.go:36-55 | The URL does not depend on the version |
| Heroku.MajorVersionField | internal/buildpack/heroku.go:57-60 | The major version is the first `.`-field |
| Heroku.Install | internal/buildpack/heroku.go:78-102 | State and error are `InstallResult` |
| Heroku.InstallSucceedsIffInstalled | internal/buildpack/heroku.go:78-102 | Nil iff the dir was there or download and unpack both succeed; on nil the dir exists |
| Heroku.InstallIdempotent | internal/buildpack/heroku.go:81-99 | A second install after a successful one does nothing |
| Heroku.Setup | internal/buildpack/heroku.go:66-75 | Returns nil; state is `SetupResult` |
| Heroku.SetupEnvironment | internal/buildpack/heroku.go:66-75 | PATH is `<herokuDir>/heroku/bin:<old PATH>`, nothing else changes |
| NodeJs.NewNodeBuildTool | buildpacks/nodejs.go:21-28 | Copies the version and the spec |
| NodeJs.DownloadNamesNodeDir | buildpacks/nodejs.go:64-65 | The tarball is `<PackageString>.tar.gz`, the last element of `NodeDir` |
| NodeJs.Install | buildpacks/nodejs.go:54-81 | State and error are `InstallResult` |
| NodeJs.InstallEffects | buildpacks/nodejs.go:54-81 | A present node dir means nothing happens. Otherwise it downloads once, returns a download error, and otherwise unpacks into the install dir and returns the unpack's result |
| NodeJs.InstallIdempotent | buildpacks/nodejs.go:60-78 | A second install is a no-op when the archive held the package dir |
| NodeJs.Setup | buildpacks/nodejs.go:83-96 | Returns nil; state is `SetupResult` |
| NodeJs.SetupEnvironment | buildpacks/nodejs.go:83-96 | PATH is `npm bin : node bin : old PATH`, NODE_PATH is the package dir, nothing else changes |
| Homebrew.NewHomebrewBuildTool | build_homebrew.go:18-27 | The version holds no `:` |
| Homebrew.ToolSpecVersion | build_homebrew.go:18-27 | `brew:<version>` yields that version |
| Homebrew.InstallPlatformDependencies | build_homebrew.go:89-92 | Returns nil |
| Homebrew.Install | build_homebrew.go:45-77 | State and error are `InstallResult` |
| Homebrew.InstallOutcome | build_homebrew.go:45-77 | Off darwin: `Homebrew not supported on <os> platform` and no effect. On darwin: the install dir exists afterwards, it fails iff the clone is needed and fails (`Couldn't clone brew: ...`), and success leaves brew so a second install does nothing |
| Homebrew.Setup | build_homebrew.go:79-87 | Returns nil; state is `SetupResult` |
| Homebrew.SetupEnvironment | build_homebrew.go:79-87 | brew's bin leads PATH, nothing else changes |

## Design and code

Facts about the code that the model follows, and that a reader of yb's documentation might not expect:

- `BuildContainer.ExecToStdout` (containers.go:160-196) returns only the errors of creating and starting the exec session and never reads the command's exit status.
- The installers ignore what their commands return: `chmod` and `bash` in python.go:62-68 and anaconda.go:66-72, the conda commands of anaconda.go:130-136 and the R build commands of build_r.go:103-107. Only Python's conda environment commands (python.go:132-142) report a failure.
- `doTarget` wraps only the biome-creation error as `target <name>: ...` (cmd/yb/build.go:188-191). It returns the phase-dependency, setup and execute errors unchanged (cmd/yb/build.go:206-213 and 229-232).
- `doTargetList` makes a Docker network whenever a Docker client is present and no network id is set (cmd/yb/build.go:166), whatever the targets need.
- `run` returns nil after a failed build (cmd/yb/build.go:137-139; see Findings).

## Left out

- Docker is an abstract daemon state with a fault set. These are not modelled: the client connection, the hard-coded socket and the panic of `NewDockerClient`, `RemoveContainerById`, `BuildContainer.Start` and `NewServiceContext` (uuid, `LoadWorkspace`).
- Containers.NewId: Docker's random 64-digit hexadecimal ids are not modelled; the model only guarantees that a new id differs from every id in use. Containers given to the `Docker` constructor may share ids with each other.
- The network creation, biomes, `build.Setup`, `build.Execute`, `biome.ExecPrefix`, `targetToPhaseDeps` and `Manifest.BuildOrder` are not part of this model. They are opaque calls whose failures a `DriverOracle` decides. The build order is an input `Result`.
- The earlier failure returns of `run` (trace provider, data directories, `parse --exec-prefix`, Docker connection, `GetTargetPackage`) are left out because they touch only collaborators outside the core. The model starts at the build order.
- Log output, section banners and the order message are not modelled; the log text does not change any result. A close failure is recorded on its event instead of as a log line.
- Time formatting and elapsed-seconds floats: a `Span` carries its start, end and elapsed columns as already-formatted strings.
- The `traceSink` mutex and concurrent callers: calls are sequential.
- `DownloadFileWithCache`, `archiver.Unarchive`, `git.PlainClone`, `ExecToStdout`/`ExecToStdoutWithEnv`, `MkdirAsNeeded`, `os.Stat`, `PrependToPath` and `TemplateToString` come from a plumbing package that is not part of this model. Their effects are appended to a trail, and an `Oracle` decides failures and created paths. Templates are rendered by string concatenation of their fields.
- `OS()`/`Arch()`/`goInfo` are a `Platform` input. `LoadWorkspace().BuildRoot()` is a `buildRoot` input.
- The commented-out network and log-streaming code in containers.go is not modelled.
- Text.Path: `filepath.Join` is modelled without its lexical clean-up (`..`, duplicate `/`), because the core joins plain names.
- Containers.Named: Docker's `name` filter matches substrings; the model lists exact-name matches only.
- Containers.Docker.StandUp: the Go map's iteration order is unspecified; it is a `visit order` parameter that lists each key exactly once.
- Containers.ExecIn: the exit status of the command inside the container is not looked at; only the errors of creating and starting the exec session are, as in the source.
- Host.Machine.PrependToPath: the helper's source is not part of this model. It is taken to set PATH to `dir:<old PATH>`.
- Mount specs without a `:` and versions or tool specs with too few fields make the source index past the end and panic; the model states these as preconditions (`ValidMounts`, `HasPatchField`, the split length).

## Findings

| source | as written | input that shows it | evidently intended | confidence | as-written member | corrected member |
|---|---|---|---|---|---|---|
| cmd/yb/build.go:137-139 | `run` returns `err` after `BUILD FAILED`, and `err` is nil at that point | one target whose execute phase fails: `doTargetList` returns that error, `run` returns nil | return `buildError` so a failed build is reported to the CLI | not executed | Driver.RunAsWrittenHidesFailure | Driver.RunReportsFailure |
