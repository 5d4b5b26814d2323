/** The container resource manager (containers.go): the deterministic container name, image
    reference parsing and pull-if-absent, container creation with its bind mounts, exec into a
    container, and the find-or-create loop of a service context. The Docker daemon is a class
    whose state is the containers it holds, the image labels it can list, and the pulls and
    exec sessions it has been asked for; which calls fail is fixed by a `DockerFaults` value. */
module Containers {
  import opened Outcomes
  import opened Text
  import opened Host

  datatype ContainerDefinition = ContainerDefinition(
    image: string, mounts: seq<string>, ports: seq<string>, environment: seq<string>)

  /** The workspace: its build root, and the path of a package's checkout. */
  datatype Workspace = Workspace(buildRoot: string, packagePath: string -> string)

  datatype BuildContainerOpts = BuildContainerOpts(
    containerOpts: ContainerDefinition, packageName: string, workspace: Workspace)

  /** `options` is `None` in the zero value a failed creation returns. */
  datatype BuildContainer = BuildContainer(id: string, name: string, options: Option<BuildContainerOpts>)

  const EmptyContainer: BuildContainer := BuildContainer("", "", None)

  datatype HostMount = HostMount(source: string, target: string, kind: string)

  /** What a created container is configured with. */
  datatype ContainerConfig = ContainerConfig(
    image: string, cmd: seq<string>, portSpecs: seq<string>, mounts: seq<HostMount>)

  datatype ContainerRecord = ContainerRecord(id: string, name: string, config: ContainerConfig)

  datatype ExecOptions = ExecOptions(env: seq<string>, cmd: seq<string>, container: string, workingDir: string)

  datatype DockerState = DockerState(
    containers: seq<ContainerRecord>,
    imageLabels: set<string>,
    pulls: seq<(string, string)>,
    execs: seq<ExecOptions>)

  /** Which daemon calls return an error: listing containers or images, inspecting a container
      (by id), pulling a reference, creating a container (by name, besides a name already in
      use), and creating or starting an exec session. */
  datatype DockerFaults = DockerFaults(
    listContainers: bool,
    inspect: set<string>,
    listImages: bool,
    pull: set<(string, string)>,
    create: set<string>,
    createExec: set<ExecOptions>,
    startExec: set<ExecOptions>)

  /** The image without its tag: the text before the first ':'. */
  function ImageName(image: string): string
  {
    Split(image, ':')[0]
  }

  /** `<package>-<image name>`, the name `FindContainer` looks up and `NewContainer` creates. */
  function ContainerName(opts: BuildContainerOpts): string
  {
    opts.packageName + "-" + ImageName(opts.containerOpts.image)
  }

  /** The container name ignores the tag: definitions of one package whose images differ only
      in their tag share a container. */
  lemma ContainerNameIgnoresTag(a: BuildContainerOpts, b: BuildContainerOpts, image: string, tagA: string, tagB: string)
    requires ':' !in image && ':' !in tagA && ':' !in tagB
    requires a.packageName == b.packageName
    requires a.containerOpts.image == image + ":" + tagA && b.containerOpts.image == image + ":" + tagB
    ensures ContainerName(a) == ContainerName(b) == a.packageName + "-" + image
  {
    TwoFields(image, tagA, ':');
    TwoFields(image, tagB, ':');
  }

  /** The repository and tag `PullImage` pulls: the first ':'-field, and the second when there
      are exactly two fields, "latest" otherwise. */
  function ImageRef(imageLabel: string): (string, string)
  {
    var parts := Split(imageLabel, ':');
    (parts[0], if |parts| == 2 then parts[1] else "latest")
  }

  /** `name:tag` pulls that tag; an untagged name pulls "latest". */
  lemma ImageRefTagged(name: string, tag: string)
    requires ':' !in name && ':' !in tag
    ensures ImageRef(name + ":" + tag) == (name, tag)
    ensures ImageRef(name) == (name, "latest")
  {
    TwoFields(name, tag, ':');
    SplitWhole(name, ':');
  }

  /** A reference whose registry has a port has three fields, so the repository pulled is the
      registry host and the tag is dropped. */
  lemma ImageRefRegistryPort(host: string, rest: string, tag: string)
    requires ':' !in host && ':' !in rest && ':' !in tag
    ensures ImageRef(host + ":" + rest + ":" + tag) == (host, "latest")
  {
    ThreeFields(host, rest, tag, ':');
  }

  /** The containers the name filter lists, in the daemon's order. */
  function Named(cs: seq<ContainerRecord>, name: string): (r: seq<ContainerRecord>)
    ensures forall i :: 0 <= i < |r| ==> r[i].name == name && r[i] in cs
    ensures |r| == 0 <==> forall i :: 0 <= i < |cs| ==> cs[i].name != name
    decreases |cs|
  {
    if cs == [] then []
    else
      var init := cs[..|cs| - 1];
      var r := Named(init, name);
      assert forall i :: 0 <= i < |r| ==> r[i] in cs by {
        forall i | 0 <= i < |r| ensures r[i] in cs {
          var j :| 0 <= j < |init| && init[j] == r[i];
          assert cs[j] == init[j];
        }
      }
      assert forall i :: 0 <= i < |init| ==> init[i] == cs[i];
      if cs[|cs| - 1].name == name then r + [cs[|cs| - 1]] else r
  }

  /** What `FindContainer` returns: nothing on a list error, an empty listing or an inspect
      error, and otherwise the first container listed under the name. */
  function FindIn(st: DockerState, f: DockerFaults, opts: BuildContainerOpts): Option<ContainerRecord>
  {
    var listed := Named(st.containers, ContainerName(opts));
    if f.listContainers || |listed| == 0 then None
    else if listed[0].id in f.inspect then None
    else Some(listed[0])
  }

  /** A container `FindContainer` returns exists under the looked-up name; with no daemon
      errors, it returns one exactly when a container has that name. */
  lemma FindInSound(st: DockerState, f: DockerFaults, opts: BuildContainerOpts)
    ensures var r := FindIn(st, f, opts);
      && (r.Some? ==> r.value in st.containers && r.value.name == ContainerName(opts))
      && (!f.listContainers && f.inspect == {} ==>
            (r.Some? <==> exists i :: 0 <= i < |st.containers| && st.containers[i].name == ContainerName(opts)))
  {
  }

  /** `PullImage`: a list error is returned without pulling; when no local image carries the
      label the reference is pulled, and a pull error is returned. The listing filters by
      label, and a pull adds no label. */
  function PullIn(st: DockerState, f: DockerFaults, imageLabel: string): (DockerState, Option<Error>)
  {
    var ref := ImageRef(imageLabel);
    if f.listImages then (st, Some(Failed("list images " + imageLabel)))
    else if imageLabel in st.imageLabels then (st, None)
    else
      var pulled := st.(pulls := st.pulls + [ref]);
      if ref in f.pull then (pulled, Some(Failed("pull " + ref.0 + ":" + ref.1))) else (pulled, None)
  }

  /** `PullImage` pulls at most once per call, only after a successful listing that matched
      nothing; it returns an error exactly when the listing or that pull fails; nothing else
      of the daemon changes. Because a pull adds no label, a second call pulls again. */
  lemma PullInEffects(st: DockerState, f: DockerFaults, imageLabel: string)
    ensures var (st', err) := PullIn(st, f, imageLabel);
      var pulls := !f.listImages && imageLabel !in st.imageLabels;
      && st'.containers == st.containers && st'.imageLabels == st.imageLabels && st'.execs == st.execs
      && st'.pulls == st.pulls + (if pulls then [ImageRef(imageLabel)] else [])
      && (err.Some? <==> f.listImages || (pulls && ImageRef(imageLabel) in f.pull))
      && (pulls ==> PullIn(st', f, imageLabel).0.pulls == st'.pulls + [ImageRef(imageLabel)])
  {
  }

  /** The length of the longest id in use. */
  function LongestId(cs: seq<ContainerRecord>): (n: nat)
    ensures forall i :: 0 <= i < |cs| ==> |cs[i].id| <= n
    decreases |cs|
  {
    if cs == [] then 0
    else
      var rest := LongestId(cs[..|cs| - 1]);
      var last := |cs[|cs| - 1].id|;
      if last <= rest then rest else last
  }

  /** The id the daemon gives a new container. Docker picks a random one; the model picks
      one longer than every id in use, so it is never an existing container's id. */
  function NewId(cs: seq<ContainerRecord>): (id: string)
    ensures forall i :: 0 <= i < |cs| ==> cs[i].id != id
  {
    Repeat("c", LongestId(cs) + 1)
  }

  /** Creating a container fails when the name is taken or the daemon refuses it; otherwise it
      is added under a fresh id. */
  function CreateIn(st: DockerState, f: DockerFaults, name: string, config: ContainerConfig)
    : (r: (DockerState, Result<string>))
    ensures r.1.Ok? ==> forall i :: 0 <= i < |st.containers| ==> st.containers[i].id != r.1.value
  {
    if name in f.create || |Named(st.containers, name)| > 0 then
      (st, Err(Failed("create container " + name)))
    else
      var id := NewId(st.containers);
      (st.(containers := st.containers + [ContainerRecord(id, name, config)]), Ok(id))
  }

  /** The argv of the idle command. */
  const IdleCommand: seq<string> := ["tail", "-f", "/dev/null"]

  /** The idle command string splits on spaces into its three arguments. */
  lemma IdleCommandSplit()
    ensures Split("tail -f /dev/null", ' ') == IdleCommand
  {
    assert "tail" + [' '] + "-f" + [' '] + "/dev/null" == "tail -f /dev/null";
    ThreeFields("tail", "-f", "/dev/null", ' ');
  }

  /** Every mount spec has a second ':'-field; the source indexes it and panics otherwise. */
  predicate ValidMounts(d: ContainerDefinition)
  {
    forall i :: 0 <= i < |d.mounts| ==> |Split(d.mounts[i], ':')| >= 2
  }

  /** The package's working directory under the build root. */
  function PackageWorkdir(opts: BuildContainerOpts): string
  {
    Path(opts.workspace.buildRoot, opts.packageName)
  }

  /** A `src:dst` spec as a bind mount of `<workdir>/src` on `dst`. */
  function MountFor(pkgWorkdir: string, spec: string): HostMount
    requires |Split(spec, ':')| >= 2
  {
    var s := Split(spec, ':');
    HostMount(Path(pkgWorkdir, s[0]), s[1], "bind")
  }

  /** The mount of the package checkout on /build. */
  function WorkspaceMount(opts: BuildContainerOpts): HostMount
  {
    HostMount(opts.workspace.packagePath(opts.packageName), "/build", "bind")
  }

  /** The mounts of the first `n` specs. */
  function SpecMounts(opts: BuildContainerOpts, n: nat): (r: seq<HostMount>)
    requires n <= |opts.containerOpts.mounts| && ValidMounts(opts.containerOpts)
    ensures |r| == n
    ensures forall i :: 0 <= i < n ==> r[i] == MountFor(PackageWorkdir(opts), opts.containerOpts.mounts[i])
  {
    if n == 0 then [] else SpecMounts(opts, n - 1) + [MountFor(PackageWorkdir(opts), opts.containerOpts.mounts[n - 1])]
  }

  /** The mounts a container is created with: one per spec, in order, then the workspace. */
  function MountsOf(opts: BuildContainerOpts): seq<HostMount>
    requires ValidMounts(opts.containerOpts)
  {
    SpecMounts(opts, |opts.containerOpts.mounts|) + [WorkspaceMount(opts)]
  }

  /** The host directories made for the first `n` specs. */
  function MountSources(opts: BuildContainerOpts, n: nat): set<string>
    requires n <= |opts.containerOpts.mounts| && ValidMounts(opts.containerOpts)
  {
    if n == 0 then {} else MountSources(opts, n - 1) + {MountFor(PackageWorkdir(opts), opts.containerOpts.mounts[n - 1]).source}
  }

  /** There is one mount more than there are specs: spec `i` mounts `<workdir>/<src>` on `<dst>`
      for its `src:dst`, every mount binds, and the last mounts the package checkout on /build. */
  lemma MountsShape(opts: BuildContainerOpts)
    requires ValidMounts(opts.containerOpts)
    ensures var ms := MountsOf(opts);
      var specs := opts.containerOpts.mounts;
      && |ms| == |specs| + 1
      && ms[|specs|] == HostMount(opts.workspace.packagePath(opts.packageName), "/build", "bind")
      && (forall i :: 0 <= i < |ms| ==> ms[i].kind == "bind")
      && (forall src, dst, i :: 0 <= i < |specs| && ':' !in src && ':' !in dst && specs[i] == src + ":" + dst ==>
            ms[i] == HostMount(Path(PackageWorkdir(opts), src), dst, "bind"))
  {
    var ms := MountsOf(opts);
    var specs := opts.containerOpts.mounts;
    forall src, dst, i | 0 <= i < |specs| && ':' !in src && ':' !in dst && specs[i] == src + ":" + dst
      ensures ms[i] == HostMount(Path(PackageWorkdir(opts), src), dst, "bind")
    {
      TwoFields(src, dst, ':');
    }
  }

  /** Translating the mount specs: one bind mount per spec, in order, making each host directory
      as it goes, then the workspace mount. */
  method BuildMounts(opts: BuildContainerOpts, m: Machine) returns (mounts: seq<HostMount>)
    requires ValidMounts(opts.containerOpts)
    modifies m
    ensures mounts == MountsOf(opts)
    ensures m.State() == old(m.State()).(dirs := old(m.dirs) + MountSources(opts, |opts.containerOpts.mounts|))
  {
    var specs := opts.containerOpts.mounts;
    var pkgWorkdir := PackageWorkdir(opts);
    mounts := [];
    for i := 0 to |specs|
      invariant mounts == SpecMounts(opts, i)
      invariant m.State() == old(m.State()).(dirs := old(m.dirs) + MountSources(opts, i))
    {
      var s := Split(specs[i], ':');
      var src := Path(pkgWorkdir, s[0]);
      m.MkdirAsNeeded(src);
      var dst := s[1];
      mounts := mounts + [HostMount(src, dst, "bind")];
    }
    mounts := mounts + [WorkspaceMount(opts)];
  }

  /** The port specs, copied one by one. */
  method CopyPorts(portSpecs: seq<string>) returns (ports: seq<string>)
    ensures ports == portSpecs
  {
    ports := [];
    for i := 0 to |portSpecs|
      invariant ports == portSpecs[..i]
    {
      ports := ports + [portSpecs[i]];
    }
    assert portSpecs[..|portSpecs|] == portSpecs;
  }

  /** `NewContainer`: pull the image (ignoring the result), make the mount directories, and
      create a container under the derived name with the translated mounts, the ports in
      order and the idle command; a create error gives the empty container. */
  function NewContainerResult(st: DockerState, f: DockerFaults, w: World, opts: BuildContainerOpts)
    : (DockerState, World, BuildContainer, Option<Error>)
    requires ValidMounts(opts.containerOpts)
  {
    var def := opts.containerOpts;
    var name := ContainerName(opts);
    var st1 := PullIn(st, f, def.image).0;
    var w1 := w.(dirs := w.dirs + MountSources(opts, |def.mounts|));
    var config := ContainerConfig(def.image, IdleCommand, def.ports, MountsOf(opts));
    var (st2, id) := CreateIn(st1, f, name, config);
    if id.Err? then (st2, w1, EmptyContainer, Some(id.error))
    else (st2, w1, BuildContainer(id.value, name, Some(opts)), None)
  }

  /** `NewContainer` fails exactly when the name is taken or the daemon refuses it, whatever the
      pull did, and then returns the empty container and adds none. Otherwise exactly one
      container is added, under the derived name, with the image, the idle command, the ports
      and the mounts, and the result carries its id, that name and the options. */
  lemma NewContainerOutcome(st: DockerState, f: DockerFaults, w: World, opts: BuildContainerOpts)
    requires ValidMounts(opts.containerOpts)
    ensures var (st', w', bc, err) := NewContainerResult(st, f, w, opts);
      var name := ContainerName(opts);
      var def := opts.containerOpts;
      && w'.env == w.env && w'.trail == w.trail && w.dirs <= w'.dirs
      && (err.Some? <==> name in f.create || |Named(st.containers, name)| > 0)
      && (err.Some? ==> bc == EmptyContainer && st'.containers == st.containers)
      && (err.None? ==>
            && bc.name == name && bc.options == Some(opts)
            && st'.containers == st.containers
                 + [ContainerRecord(bc.id, name, ContainerConfig(def.image, IdleCommand, def.ports, MountsOf(opts)))])
  {
  }

  /** Lookup and creation agree on the name: right after a successful `NewContainer`, with no
      listing or inspect error, `FindContainer` returns the container it created. */
  lemma FindAfterCreate(st: DockerState, f: DockerFaults, w: World, opts: BuildContainerOpts)
    requires ValidMounts(opts.containerOpts)
    requires NewContainerResult(st, f, w, opts).3.None?
    requires !f.listContainers
    requires NewContainerResult(st, f, w, opts).2.id !in f.inspect
    ensures var (st', _, bc, _) := NewContainerResult(st, f, w, opts);
      FindIn(st', f, opts) == Some(ContainerRecord(bc.id, bc.name, st'.containers[|st'.containers| - 1].config))
  {
    var (st', _, bc, _) := NewContainerResult(st, f, w, opts);
    var name := ContainerName(opts);
    var cs := st'.containers;
    assert cs[..|cs| - 1] == st.containers;
    assert |Named(st.containers, name)| == 0;
    assert Named(cs, name) == [cs[|cs| - 1]];
  }

  /** The exec session `ExecToStdout` asks for: the command split on spaces, the definition's
      environment, the container's id and /build as working directory. */
  function ExecOptionsFor(b: BuildContainer, cmdString: string): ExecOptions
  {
    var env := if b.options.Some? then b.options.value.containerOpts.environment else [];
    ExecOptions(env, Split(cmdString, ' '), b.id, "/build")
  }

  /** The arguments are the space-separated words of the command line: none holds a space and
      joined with single spaces they give the line back, so a quoted argument with a space is
      split. */
  lemma ExecArgv(b: BuildContainer, cmdString: string)
    ensures var e := ExecOptionsFor(b, cmdString);
      && |e.cmd| >= 1
      && (forall i :: 0 <= i < |e.cmd| ==> ' ' !in e.cmd[i])
      && Join(e.cmd, " ") == cmdString
      && e.workingDir == "/build" && e.container == b.id
  {
  }

  /** `ExecToStdout`: create the session and start it, returning the first error; only a
      created session is recorded. The command's exit status is not looked at. */
  function ExecIn(st: DockerState, f: DockerFaults, b: BuildContainer, cmdString: string): (DockerState, Option<Error>)
  {
    var e := ExecOptionsFor(b, cmdString);
    if e in f.createExec then (st, Some(Failed("create exec in " + b.id)))
    else
      var st1 := st.(execs := st.execs + [e]);
      if e in f.startExec then (st1, Some(Failed("start exec in " + b.id))) else (st1, None)
  }

  /** The stub network: no id and no error. */
  function SetupNetwork(sc: ServiceContext): (r: (string, Option<Error>))
    ensures r.0 == "" && r.1.None?
  {
    ("", None)
  }

  /** The stub cleanup: no error. */
  function Cleanup(sc: ServiceContext): (err: Option<Error>)
    ensures err.None?
  {
    None
  }

  datatype ServiceContext = ServiceContext(
    id: string,
    containers: map<string, ContainerDefinition>,
    packageName: string,
    networkId: string,
    workspace: Workspace)

  function OptionsFor(sc: ServiceContext, c: ContainerDefinition): BuildContainerOpts
  {
    BuildContainerOpts(c, sc.packageName, sc.workspace)
  }

  /** An order in which the map of definitions is visited (Go leaves it unspecified): every
      entry is a key, and every key is visited. */
  predicate IsVisitOrder(sc: ServiceContext, order: seq<string>)
  {
    && (forall i :: 0 <= i < |order| ==> order[i] in sc.containers)
    && (forall k :: k in sc.containers ==> k in order)
    && (forall i, j :: 0 <= i < j < |order| ==> order[i] != order[j])
  }

  predicate MountsValid(sc: ServiceContext)
  {
    forall k :: k in sc.containers ==> ValidMounts(sc.containers[k])
  }

  /** The package and log directories `StandUp` makes under the loaded build root. */
  function StandUpDirs(buildRoot: string, sc: ServiceContext): set<string>
  {
    var pkgWorkdir := Path(buildRoot, sc.packageName);
    {pkgWorkdir, Path(pkgWorkdir, "logs")}
  }

  /** `StandUp` over the first entries of the visit order: make the package and log directories,
      then for each definition do nothing when its container is found and create it otherwise,
      returning the first create error. */
  function StandUpResult(st: DockerState, f: DockerFaults, w: World, buildRoot: string,
                         sc: ServiceContext, order: seq<string>): (DockerState, World, Option<Error>)
    requires forall i :: 0 <= i < |order| ==> order[i] in sc.containers
    requires MountsValid(sc)
    decreases |order|
  {
    if order == [] then (st, w.(dirs := w.dirs + StandUpDirs(buildRoot, sc)), None)
    else
      var (st1, w1, e) := StandUpResult(st, f, w, buildRoot, sc, order[..|order| - 1]);
      if e.Some? then (st1, w1, e)
      else EnsureContainer(st1, f, w1, OptionsFor(sc, sc.containers[order[|order| - 1]]))
  }

  /** One definition of `StandUp`: nothing when its container is found, otherwise
      `NewContainer`, whose error is returned. */
  function EnsureContainer(st: DockerState, f: DockerFaults, w: World, opts: BuildContainerOpts)
    : (DockerState, World, Option<Error>)
    requires ValidMounts(opts.containerOpts)
  {
    if FindIn(st, f, opts).Some? then (st, w, None)
    else
      var (st2, w2, _, e2) := NewContainerResult(st, f, w, opts);
      (st2, w2, e2)
  }

  /** One more definition, after a prefix of the visit order without error. */
  lemma StandUpStep(st: DockerState, f: DockerFaults, w: World, buildRoot: string,
                    sc: ServiceContext, order: seq<string>, i: nat)
    requires forall i :: 0 <= i < |order| ==> order[i] in sc.containers
    requires MountsValid(sc)
    requires i < |order|
    requires StandUpResult(st, f, w, buildRoot, sc, order[..i]).2.None?
    ensures var (st1, w1, _) := StandUpResult(st, f, w, buildRoot, sc, order[..i]);
      StandUpResult(st, f, w, buildRoot, sc, order[..i + 1])
        == EnsureContainer(st1, f, w1, OptionsFor(sc, sc.containers[order[i]]))
  {
    assert order[..i + 1][..i] == order[..i];
  }

  /** `StandUp` never removes a container: the containers before it are a prefix of those after. */
  lemma {:induction false} StandUpGrows(st: DockerState, f: DockerFaults, w: World, buildRoot: string,
                                        sc: ServiceContext, order: seq<string>)
    requires forall i :: 0 <= i < |order| ==> order[i] in sc.containers
    requires MountsValid(sc)
    ensures st.containers <= StandUpResult(st, f, w, buildRoot, sc, order).0.containers
    decreases |order|
  {
    if order != [] {
      var init := order[..|order| - 1];
      StandUpGrows(st, f, w, buildRoot, sc, init);
      var (st1, w1, e) := StandUpResult(st, f, w, buildRoot, sc, init);
      if e.None? {
        var opts := OptionsFor(sc, sc.containers[order[|order| - 1]]);
        if FindIn(st1, f, opts).None? {
          NewContainerOutcome(st1, f, w1, opts);
        }
      }
    }
  }

  /** A container named `name` stays findable by name when more are added. */
  lemma NamedGrows(cs: seq<ContainerRecord>, more: seq<ContainerRecord>, name: string)
    requires |Named(cs, name)| > 0
    requires cs <= more
    ensures |Named(more, name)| > 0
  {
    var i :| 0 <= i < |cs| && cs[i].name == name;
    assert more[i] == cs[i];
  }

  /** After a `StandUp` that returned nil, every visited definition has a container under its
      derived name: it was found, or it was created. */
  lemma {:induction false} StandUpProvides(st: DockerState, f: DockerFaults, w: World, buildRoot: string,
                                           sc: ServiceContext, order: seq<string>)
    requires forall i :: 0 <= i < |order| ==> order[i] in sc.containers
    requires MountsValid(sc)
    requires StandUpResult(st, f, w, buildRoot, sc, order).2.None?
    ensures var st' := StandUpResult(st, f, w, buildRoot, sc, order).0;
      forall i :: 0 <= i < |order| ==>
        |Named(st'.containers, ContainerName(OptionsFor(sc, sc.containers[order[i]])))| > 0
    decreases |order|
  {
    if order != [] {
      var init := order[..|order| - 1];
      var (st1, w1, e) := StandUpResult(st, f, w, buildRoot, sc, init);
      StandUpProvides(st, f, w, buildRoot, sc, init);
      var st' := StandUpResult(st, f, w, buildRoot, sc, order).0;
      var opts := OptionsFor(sc, sc.containers[order[|order| - 1]]);
      var name := ContainerName(opts);
      if FindIn(st1, f, opts).Some? {
        FindInSound(st1, f, opts);
        assert st'.containers == st1.containers;
      } else {
        NewContainerOutcome(st1, f, w1, opts);
        assert st'.containers[|st'.containers| - 1].name == name;
      }
      assert st1.containers <= st'.containers;
      forall i | 0 <= i < |order|
        ensures |Named(st'.containers, ContainerName(OptionsFor(sc, sc.containers[order[i]])))| > 0
      {
        if i < |order| - 1 {
          assert order[i] == init[i];
          NamedGrows(st1.containers, st'.containers, ContainerName(OptionsFor(sc, sc.containers[order[i]])));
        }
      }
    }
  }

  /** Once a create error has been returned, the rest of the visit order does nothing. */
  lemma {:induction false} StandUpStops(st: DockerState, f: DockerFaults, w: World, buildRoot: string,
                                        sc: ServiceContext, order: seq<string>, n: nat)
    requires forall i :: 0 <= i < |order| ==> order[i] in sc.containers
    requires MountsValid(sc)
    requires n <= |order|
    requires StandUpResult(st, f, w, buildRoot, sc, order[..n]).2.Some?
    ensures StandUpResult(st, f, w, buildRoot, sc, order) == StandUpResult(st, f, w, buildRoot, sc, order[..n])
    decreases |order| - n
  {
    if n < |order| {
      assert order[..n + 1][..n] == order[..n];
      StandUpStops(st, f, w, buildRoot, sc, order, n + 1);
    } else {
      assert order[..n] == order;
    }
  }

  /** The Docker daemon the manager talks to. */
  class Docker {
    var containers: seq<ContainerRecord>
    var imageLabels: set<string>
    var pulls: seq<(string, string)>
    var execs: seq<ExecOptions>
    const faults: DockerFaults

    function State(): DockerState
      reads this
    {
      DockerState(containers, imageLabels, pulls, execs)
    }

    constructor (containers: seq<ContainerRecord>, imageLabels: set<string>, faults: DockerFaults)
      ensures State() == DockerState(containers, imageLabels, [], [])
      ensures this.faults == faults
    {
      this.containers := containers;
      this.imageLabels := imageLabels;
      this.pulls := [];
      this.execs := [];
      this.faults := faults;
    }

    /** `ListContainers` with the name filter. */
    method ListContainers(name: string) returns (r: Result<seq<ContainerRecord>>)
      ensures r == if faults.listContainers then Err(Failed("list containers")) else Ok(Named(containers, name))
    {
      if faults.listContainers {
        r := Err(Failed("list containers"));
      } else {
        r := Ok(Named(containers, name));
      }
    }

    method InspectContainer(c: ContainerRecord) returns (r: Result<ContainerRecord>)
      ensures r == if c.id in faults.inspect then Err(Failed("inspect " + c.id)) else Ok(c)
    {
      if c.id in faults.inspect {
        r := Err(Failed("inspect " + c.id));
      } else {
        r := Ok(c);
      }
    }

    method FindContainer(opts: BuildContainerOpts) returns (c: Option<ContainerRecord>)
      ensures c == FindIn(State(), faults, opts)
    {
      var cd := opts.containerOpts;
      var s := Split(cd.image, ':');
      var imageName := s[0];
      var containerName := opts.packageName + "-" + imageName;
      var result := ListContainers(containerName);
      if result.Ok? && |result.value| > 0 {
        var first := result.value[0];
        var container := InspectContainer(first);
        if container.Err? {
          return None;
        } else {
          return Some(container.value);
        }
      } else {
        return None;
      }
    }

    method PullImage(imageLabel: string) returns (err: Option<Error>)
      modifies this
      ensures (State(), err) == PullIn(old(State()), faults, imageLabel)
    {
      var parts := Split(imageLabel, ':');
      var imageName := parts[0];
      var imageTag := "latest";
      if |parts| == 2 {
        imageTag := parts[1];
      }
      if faults.listImages {
        return Some(Failed("list images " + imageLabel));
      }
      if imageLabel !in imageLabels {
        pulls := pulls + [(imageName, imageTag)];
        if (imageName, imageTag) in faults.pull {
          return Some(Failed("pull " + imageName + ":" + imageTag));
        }
      }
      err := None;
    }

    method CreateContainer(name: string, config: ContainerConfig) returns (id: Result<string>)
      modifies this
      ensures (State(), id) == CreateIn(old(State()), faults, name, config)
    {
      if name in faults.create || |Named(containers, name)| > 0 {
        return Err(Failed("create container " + name));
      }
      var newId := NewId(containers);
      containers := containers + [ContainerRecord(newId, name, config)];
      id := Ok(newId);
    }

    method NewContainer(opts: BuildContainerOpts, m: Machine) returns (b: BuildContainer, err: Option<Error>)
      requires ValidMounts(opts.containerOpts)
      modifies this, m
      ensures (State(), m.State(), b, err) == NewContainerResult(old(State()), faults, old(m.State()), opts)
    {
      var containerDef := opts.containerOpts;
      var s := Split(containerDef.image, ':');
      var imageName := s[0];
      var containerName := opts.packageName + "-" + imageName;
      var _ := PullImage(containerDef.image);
      var mounts := BuildMounts(opts, m);
      var ports := CopyPorts(containerDef.ports);
      var cmdParts := Split("tail -f /dev/null", ' ');
      IdleCommandSplit();
      var config := ContainerConfig(containerDef.image, cmdParts, ports, mounts);
      var id := CreateContainer(containerName, config);
      if id.Err? {
        return EmptyContainer, Some(id.error);
      }
      b := BuildContainer(id.value, containerName, Some(opts));
      err := None;
    }

    method ExecToStdout(b: BuildContainer, cmdString: string) returns (err: Option<Error>)
      modifies this
      ensures (State(), err) == ExecIn(old(State()), faults, b, cmdString)
    {
      var cmdArray := Split(cmdString, ' ');
      var env := if b.options.Some? then b.options.value.containerOpts.environment else [];
      var execOpts := ExecOptions(env, cmdArray, b.id, "/build");
      if execOpts in faults.createExec {
        return Some(Failed("create exec in " + b.id));
      }
      execs := execs + [execOpts];
      if execOpts in faults.startExec {
        return Some(Failed("start exec in " + b.id));
      }
      err := None;
    }

    /** The body of `StandUp`'s loop for one definition. */
    method Ensure(opts: BuildContainerOpts, m: Machine) returns (err: Option<Error>)
      requires ValidMounts(opts.containerOpts)
      modifies this, m
      ensures (State(), m.State(), err) == EnsureContainer(old(State()), faults, old(m.State()), opts)
    {
      var container := FindContainer(opts);
      if container.None? {
        var created;
        created, err := NewContainer(opts, m);
      } else {
        err := None;
      }
    }

    /** `StandUp` for one visit order of the definitions. */
    method StandUp(sc: ServiceContext, buildRoot: string, order: seq<string>, m: Machine) returns (err: Option<Error>)
      requires IsVisitOrder(sc, order) && MountsValid(sc)
      modifies this, m
      ensures (State(), m.State(), err) == StandUpResult(old(State()), faults, old(m.State()), buildRoot, sc, order)
    {
      var pkgWorkdir := Path(buildRoot, sc.packageName);
      m.MkdirAsNeeded(pkgWorkdir);
      var logDir := Path(pkgWorkdir, "logs");
      m.MkdirAsNeeded(logDir);
      assert order[..0] == [];
      assert m.State() == old(m.State()).(dirs := old(m.dirs) + StandUpDirs(buildRoot, sc));
      for i := 0 to |order|
        invariant (State(), m.State(), None) == StandUpResult(old(State()), faults, old(m.State()), buildRoot, sc, order[..i])
      {
        StandUpStep(old(State()), faults, old(m.State()), buildRoot, sc, order, i);
        var createErr := Ensure(OptionsFor(sc, sc.containers[order[i]]), m);
        if createErr.Some? {
          StandUpStops(old(State()), faults, old(m.State()), buildRoot, sc, order, i + 1);
          return createErr;
        }
      }
      assert order[..|order|] == order;
      err := None;
    }
  }
}
