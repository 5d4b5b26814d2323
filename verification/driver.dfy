/** The build driver of the `build` command (cmd/yb/build.go): targets run in order and the
    first failure stops the list; the Docker network is made at most once and removed once on
    every exit; each target's biome, and the biome its setup returns, are closed through
    deferred calls in reverse order, and a failure to close is only logged. The biome, the
    setup and execute phases and the network are opaque calls whose failures a
    `DriverOracle` decides, and what the driver does is recorded as a trail of events. */
module Driver {
  import opened Outcomes
  import opened Text

  datatype Target = Target(name: string)

  /** `doOptions`; the data directories are left out. */
  datatype DoOptions = DoOptions(dockerClient: bool, dockerNetworkId: string, execPrefix: seq<string>, setupOnly: bool)

  /** What the driver does. A close records the error it returned, if any. */
  datatype Event =
    | NetworkCreated(id: string)
    | BiomeCreated(target: string)
    | SetupRun(target: string, network: string)
    | ExecuteRun(target: string, prefix: seq<string>, network: string)
    | ExecBiomeClosed(target: string, failure: Option<Error>)
    | BiomeClosed(target: string, failure: Option<Error>)
    | NetworkCleanedUp(id: string)

  /** Which opaque calls fail, by target name, and the id a new network gets. */
  datatype DriverOracle = DriverOracle(
    networkFails: bool,
    networkId: string,
    biomeFails: set<string>,
    phaseDepsFails: set<string>,
    setupFails: set<string>,
    executeFails: set<string>,
    biomeCloseFails: set<string>,
    execBiomeCloseFails: set<string>)

  const NetworkError: Error := Failed("create Docker network")

  function BiomeError(target: string): Error { Failed("new biome for " + target) }
  function PhaseDepsError(target: string): Error { Failed("phase dependencies of " + target) }
  function SetupError(target: string): Error { Failed("set up " + target) }
  function ExecuteError(target: string): Error { Failed("execute " + target) }
  function BiomeCloseError(target: string): Error { Failed("close biome of " + target) }
  function ExecBiomeCloseError(target: string): Error { Failed("close exec biome of " + target) }

  /** A call registered with `defer`. */
  datatype Deferred = CloseBiome(target: string) | CloseExecBiome(target: string) | RemoveNetwork(id: string)

  /** What running one deferred call records. */
  function Cleanup(o: DriverOracle, d: Deferred): Event
  {
    match d
    case CloseBiome(t) => BiomeClosed(t, if t in o.biomeCloseFails then Some(BiomeCloseError(t)) else None)
    case CloseExecBiome(t) => ExecBiomeClosed(t, if t in o.execBiomeCloseFails then Some(ExecBiomeCloseError(t)) else None)
    case RemoveNetwork(id) => NetworkCleanedUp(id)
  }

  /** Leaving a function runs its deferred calls last-registered first. */
  function Unwound(o: DriverOracle, stack: seq<Deferred>): seq<Event>
    decreases |stack|
  {
    if stack == [] then [] else Unwound(o, stack[1..]) + [Cleanup(o, stack[0])]
  }

  /** `doTarget`: make the biome (a failure is wrapped as `target <name>: ...`), defer its
      close, compute the phase dependencies and run setup, defer the close of the biome setup
      returns, then stop when only setup was asked for, and otherwise execute through the
      prefixing biome. The first error is returned; the deferred closes run on every path
      after the biome exists, the later-registered first. */
  function TargetRun(o: DriverOracle, opts: DoOptions, t: Target): (seq<Event>, Option<Error>)
  {
    var n := t.name;
    var net := opts.dockerNetworkId;
    if n in o.biomeFails then ([], Some(Wrapped("target " + n + ": ", BiomeError(n), "")))
    else if n in o.phaseDepsFails then ([BiomeCreated(n), Cleanup(o, CloseBiome(n))], Some(PhaseDepsError(n)))
    else if n in o.setupFails then
      ([BiomeCreated(n), SetupRun(n, net), Cleanup(o, CloseBiome(n))], Some(SetupError(n)))
    else if opts.setupOnly then
      ([BiomeCreated(n), SetupRun(n, net), Cleanup(o, CloseExecBiome(n)), Cleanup(o, CloseBiome(n))], None)
    else
      ([BiomeCreated(n), SetupRun(n, net), ExecuteRun(n, opts.execPrefix, net),
        Cleanup(o, CloseExecBiome(n)), Cleanup(o, CloseBiome(n))],
       if n in o.executeFails then Some(ExecuteError(n)) else None)
  }

  /** One deferred call unwinds to its own event. */
  lemma UnwindOne(o: DriverOracle, d: Deferred)
    ensures Unwound(o, [d]) == [Cleanup(o, d)]
  {
    assert [d][1..] == [];
  }

  /** The two biomes close in reverse order of creation: the one setup returned first. */
  lemma UnwindOrder(o: DriverOracle, n: string)
    ensures Unwound(o, [CloseBiome(n), CloseExecBiome(n)]) == [Cleanup(o, CloseExecBiome(n)), Cleanup(o, CloseBiome(n))]
  {
    var both := [CloseBiome(n), CloseExecBiome(n)];
    assert both[1..] == [CloseExecBiome(n)];
    UnwindOne(o, CloseExecBiome(n));
  }

  /** Any stack of deferred calls unwinds in reverse: the i-th event is the cleanup of the
      i-th call counted from the top of the stack. */
  lemma {:induction false} UnwoundReverses(o: DriverOracle, stack: seq<Deferred>)
    ensures |Unwound(o, stack)| == |stack|
    ensures forall i :: 0 <= i < |stack| ==> Unwound(o, stack)[i] == Cleanup(o, stack[|stack| - 1 - i])
    decreases |stack|
  {
    if stack != [] {
      UnwoundReverses(o, stack[1..]);
    }
  }

  /** Whether `doTarget` got past setup. */
  predicate SetupSucceeds(o: DriverOracle, n: string)
  {
    n !in o.biomeFails && n !in o.phaseDepsFails && n !in o.setupFails
  }

  /** The closes of `doTarget`: once the biome exists it is closed once, as the very last
      step, and the close records its own failure; the biome setup returned is closed once,
      just before it, exactly when setup succeeded. */
  lemma TargetCloses(o: DriverOracle, opts: DoOptions, t: Target)
    ensures var (evs, err) := TargetRun(o, opts, t);
      var n := t.name;
      && (n in o.biomeFails ==> evs == [])
      && (n !in o.biomeFails ==>
            && evs[|evs| - 1] == BiomeClosed(n, if n in o.biomeCloseFails then Some(BiomeCloseError(n)) else None)
            && forall i :: 0 <= i < |evs| - 1 ==> !evs[i].BiomeClosed?)
      && (SetupSucceeds(o, n) ==>
            && |evs| >= 2
            && evs[|evs| - 2] == ExecBiomeClosed(n, if n in o.execBiomeCloseFails then Some(ExecBiomeCloseError(n)) else None)
            && forall i :: 0 <= i < |evs| - 2 ==> !evs[i].ExecBiomeClosed?)
      && (!SetupSucceeds(o, n) ==> forall i :: 0 <= i < |evs| ==> !evs[i].ExecBiomeClosed?)
  {
  }

  /** Errors from `doTarget` come from the biome, the phase dependencies, setup or execute; a
      biome-creation error reads `target <name>: <cause>`, and the phase-dependency and setup
      errors are returned unchanged; with `setupOnly` nothing is executed
      and the result is nil once setup succeeds; otherwise execute runs with the exec prefix
      and the network id of the options, and its error is returned as is. */
  lemma TargetOutcome(o: DriverOracle, opts: DoOptions, t: Target)
    ensures var (evs, err) := TargetRun(o, opts, t);
      var n := t.name;
      && (n in o.biomeFails ==> err.Some? && Message(err.value) == "target " + n + ": " + Message(BiomeError(n)))
      && (n !in o.biomeFails && n in o.phaseDepsFails ==> err == Some(PhaseDepsError(n)))
      && (n !in o.biomeFails && n !in o.phaseDepsFails && n in o.setupFails ==> err == Some(SetupError(n)))
      && (opts.setupOnly ==> (forall i :: 0 <= i < |evs| ==> !evs[i].ExecuteRun?) && (SetupSucceeds(o, n) ==> err.None?))
      && (!opts.setupOnly && SetupSucceeds(o, n) ==>
            ExecuteRun(n, opts.execPrefix, opts.dockerNetworkId) in evs
            && err == (if n in o.executeFails then Some(ExecuteError(n)) else None))
      && (err.None? <==> SetupSucceeds(o, n) && (opts.setupOnly || n !in o.executeFails))
  {
    var n := t.name;
    var (evs, err) := TargetRun(o, opts, t);
    if n in o.biomeFails {
      var p := "target " + n + ": ";
      assert Message(err.value) == p + Message(BiomeError(n)) + "";
      assert p + Message(BiomeError(n)) + "" == p + Message(BiomeError(n));
    } else if SetupSucceeds(o, n) && !opts.setupOnly {
      assert evs[2] == ExecuteRun(n, opts.execPrefix, opts.dockerNetworkId);
    }
  }

  /** The oracles agree on everything but whether the closes fail. */
  predicate SameButCloses(a: DriverOracle, b: DriverOracle)
  {
    a.(biomeCloseFails := {}, execBiomeCloseFails := {}) == b.(biomeCloseFails := {}, execBiomeCloseFails := {})
  }

  /** A close that fails is only logged: it never changes what `doTarget` returns. */
  lemma CloseErrorsNotReturned(a: DriverOracle, b: DriverOracle, opts: DoOptions, t: Target)
    requires SameButCloses(a, b)
    ensures TargetRun(a, opts, t).1 == TargetRun(b, opts, t).1
  {
    var a0 := a.(biomeCloseFails := {}, execBiomeCloseFails := {});
    assert a.biomeFails == a0.biomeFails && a.phaseDepsFails == a0.phaseDepsFails;
    assert a.setupFails == a0.setupFails && a.executeFails == a0.executeFails;
  }

  predicate NoNetworkEvents(evs: seq<Event>)
  {
    forall i :: 0 <= i < |evs| ==> !evs[i].NetworkCreated? && !evs[i].NetworkCleanedUp?
  }

  /** Every setup in the trail runs on the given network. */
  predicate SetupsOn(evs: seq<Event>, network: string)
  {
    forall i :: 0 <= i < |evs| && evs[i].SetupRun? ==> evs[i].network == network
  }

  /** The loop of `doTargetList`: targets in order, stopping at the first error, which is
      returned unchanged. */
  function RunTargets(o: DriverOracle, opts: DoOptions, targets: seq<Target>): (seq<Event>, Option<Error>)
    decreases |targets|
  {
    if targets == [] then ([], None)
    else
      var (evs, err) := RunTargets(o, opts, targets[..|targets| - 1]);
      if err.Some? then (evs, err)
      else
        var (e2, err2) := TargetRun(o, opts, targets[|targets| - 1]);
        (evs + e2, err2)
  }

  /** A target touches no network and sets up on the network of its options. */
  lemma TargetEvents(o: DriverOracle, opts: DoOptions, t: Target)
    ensures NoNetworkEvents(TargetRun(o, opts, t).0)
    ensures SetupsOn(TargetRun(o, opts, t).0, opts.dockerNetworkId)
  {
  }

  /** The targets touch no network, and every one is set up on the network of the options. */
  lemma {:induction false} RunTargetsEvents(o: DriverOracle, opts: DoOptions, targets: seq<Target>)
    ensures NoNetworkEvents(RunTargets(o, opts, targets).0)
    ensures SetupsOn(RunTargets(o, opts, targets).0, opts.dockerNetworkId)
    decreases |targets|
  {
    if targets != [] {
      var init := targets[..|targets| - 1];
      RunTargetsEvents(o, opts, init);
      TargetEvents(o, opts, targets[|targets| - 1]);
    }
  }

  /** The loop succeeds exactly when every target does; when it fails, the error is that of a
      target all of whose predecessors succeeded. */
  lemma {:induction false} RunTargetsFirstFailure(o: DriverOracle, opts: DoOptions, targets: seq<Target>)
    ensures var err := RunTargets(o, opts, targets).1;
      && (err.None? <==> forall j :: 0 <= j < |targets| ==> TargetRun(o, opts, targets[j]).1.None?)
      && (err.Some? ==>
            exists k :: 0 <= k < |targets| && err == TargetRun(o, opts, targets[k]).1
              && (forall j :: 0 <= j < k ==> TargetRun(o, opts, targets[j]).1.None?)
              && RunTargets(o, opts, targets) == RunTargets(o, opts, targets[..k + 1]))
    decreases |targets|
  {
    if targets != [] {
      var init := targets[..|targets| - 1];
      var last := targets[|targets| - 1];
      RunTargetsFirstFailure(o, opts, init);
      assert forall j :: 0 <= j < |init| ==> init[j] == targets[j];
      var err := RunTargets(o, opts, init).1;
      if err.Some? {
        var k :| 0 <= k < |init| && err == TargetRun(o, opts, init[k]).1
          && (forall j :: 0 <= j < k ==> TargetRun(o, opts, init[j]).1.None?)
          && RunTargets(o, opts, init) == RunTargets(o, opts, init[..k + 1]);
        assert init[..k + 1] == targets[..k + 1];
      } else {
        assert targets[..|targets| - 1 + 1] == targets;
      }
    }
  }

  /** One more target, after targets that all succeeded, adds its own run. */
  lemma RunTargetsStep(o: DriverOracle, opts: DoOptions, targets: seq<Target>, i: nat)
    requires i < |targets|
    requires RunTargets(o, opts, targets[..i]).1.None?
    ensures RunTargets(o, opts, targets[..i + 1])
      == (RunTargets(o, opts, targets[..i]).0 + TargetRun(o, opts, targets[i]).0, TargetRun(o, opts, targets[i]).1)
  {
    var p := targets[..i + 1];
    assert p[..|p| - 1] == targets[..i];
    assert p[|p| - 1] == targets[i];
  }

  /** Once a target has failed, the targets after it add nothing. */
  lemma {:induction false} RunTargetsStops(o: DriverOracle, opts: DoOptions, targets: seq<Target>, n: nat)
    requires n <= |targets|
    requires RunTargets(o, opts, targets[..n]).1.Some?
    ensures RunTargets(o, opts, targets) == RunTargets(o, opts, targets[..n])
    decreases |targets| - n
  {
    if n < |targets| {
      var p := targets[..n + 1];
      assert p[..|p| - 1] == targets[..n];
      assert RunTargets(o, opts, p) == RunTargets(o, opts, targets[..n]);
      RunTargetsStops(o, opts, targets, n + 1);
    } else {
      assert targets[..n] == targets;
    }
  }

  /** Whether `doTargetList` must make a network. */
  predicate NeedsNetwork(opts: DoOptions)
  {
    opts.dockerClient && opts.dockerNetworkId == ""
  }

  /** The options the targets run with: the new network's id once one was made. */
  function RunOptions(o: DriverOracle, opts: DoOptions): DoOptions
  {
    if NeedsNetwork(opts) then opts.(dockerNetworkId := o.networkId) else opts
  }

  /** `doTargetList`: nothing for no targets; make the network when a Docker client is present
      and no network is set, returning a failure before any target; run the targets with the
      new network id; remove the network after the loop. */
  function TargetListRun(o: DriverOracle, opts: DoOptions, targets: seq<Target>): (seq<Event>, Option<Error>)
  {
    if targets == [] then ([], None)
    else if NeedsNetwork(opts) then
      if o.networkFails then ([], Some(NetworkError))
      else
        var (evs, err) := RunTargets(o, RunOptions(o, opts), targets);
        ([NetworkCreated(o.networkId)] + evs + [Cleanup(o, RemoveNetwork(o.networkId))], err)
    else RunTargets(o, opts, targets)
  }

  /** The network's life: no targets, no network and no error. When a network is needed and
      cannot be made, that error is returned and no target is attempted. When it is made, it
      is created first, removed last, exactly once each, every target is set up on it, and
      the result is the loop's. When it is not needed, no network event happens at all. */
  lemma NetworkLifecycle(o: DriverOracle, opts: DoOptions, targets: seq<Target>)
    ensures TargetListRun(o, opts, []) == ([], None)
    ensures var (evs, err) := TargetListRun(o, opts, targets);
      && (targets != [] && NeedsNetwork(opts) && o.networkFails ==> evs == [] && err == Some(NetworkError))
      && (targets != [] && NeedsNetwork(opts) && !o.networkFails ==>
            && |evs| >= 2
            && evs == [NetworkCreated(o.networkId)] + evs[1..|evs| - 1] + [NetworkCleanedUp(o.networkId)]
            && NoNetworkEvents(evs[1..|evs| - 1])
            && SetupsOn(evs[1..|evs| - 1], o.networkId)
            && err == RunTargets(o, RunOptions(o, opts), targets).1)
      && (!NeedsNetwork(opts) ==> NoNetworkEvents(evs) && SetupsOn(evs, opts.dockerNetworkId))
  {
    RunTargetsEvents(o, RunOptions(o, opts), targets);
    if targets != [] && NeedsNetwork(opts) && !o.networkFails {
      var evs := TargetListRun(o, opts, targets).0;
      var inner := RunTargets(o, RunOptions(o, opts), targets).0;
      assert evs == [NetworkCreated(o.networkId)] + inner + [NetworkCleanedUp(o.networkId)];
      assert evs[1..|evs| - 1] == inner;
    }
  }

  /** Fail fast: once the network (if needed) exists, a failing list returns the error of its
      first failing target, every target before it succeeded, and the targets after it were
      never started. */
  lemma FailFast(o: DriverOracle, opts: DoOptions, targets: seq<Target>)
    requires !(NeedsNetwork(opts) && o.networkFails)
    requires TargetListRun(o, opts, targets).1.Some?
    ensures exists k :: (0 <= k < |targets|
      && TargetListRun(o, opts, targets).1 == TargetRun(o, RunOptions(o, opts), targets[k]).1
      && (forall j :: 0 <= j < k ==> TargetRun(o, RunOptions(o, opts), targets[j]).1.None?)
      && TargetListRun(o, opts, targets) == TargetListRun(o, opts, targets[..k + 1]))
  {
    var opts2 := RunOptions(o, opts);
    RunTargetsFirstFailure(o, opts2, targets);
    var r := RunTargets(o, opts2, targets);
    var k :| 0 <= k < |targets| && r.1 == TargetRun(o, opts2, targets[k]).1
      && (forall j :: 0 <= j < k ==> TargetRun(o, opts2, targets[j]).1.None?)
      && r == RunTargets(o, opts2, targets[..k + 1]);
    assert targets[..k + 1] != [];
  }

  /** The list succeeds exactly when the network (if needed) is made and every target
      succeeds. */
  lemma ListSucceeds(o: DriverOracle, opts: DoOptions, targets: seq<Target>)
    ensures TargetListRun(o, opts, targets).1.None? <==>
      && (targets != [] && NeedsNetwork(opts) ==> !o.networkFails)
      && forall j :: 0 <= j < |targets| ==> TargetRun(o, RunOptions(o, opts), targets[j]).1.None?
  {
    RunTargetsFirstFailure(o, RunOptions(o, opts), targets);
  }

  /** Whether any close fails never changes what the list returns. */
  lemma {:induction false} ListCloseErrorsNotReturned(a: DriverOracle, b: DriverOracle, opts: DoOptions, targets: seq<Target>)
    requires SameButCloses(a, b)
    ensures RunTargets(a, opts, targets).1 == RunTargets(b, opts, targets).1
    decreases |targets|
  {
    if targets != [] {
      ListCloseErrorsNotReturned(a, b, opts, targets[..|targets| - 1]);
      CloseErrorsNotReturned(a, b, opts, targets[|targets| - 1]);
    }
  }

  /** The driver: the trail of what it has done. */
  class Driver {
    var events: seq<Event>
    const oracle: DriverOracle

    constructor (oracle: DriverOracle)
      ensures events == [] && this.oracle == oracle
    {
      events := [];
      this.oracle := oracle;
    }

    /** Runs the deferred calls, the last registered first. */
    method RunDeferred(stack: seq<Deferred>)
      modifies this
      ensures events == old(events) + Unwound(oracle, stack)
    {
      var i := |stack|;
      assert stack[|stack|..] == [];
      while i > 0
        invariant 0 <= i <= |stack|
        invariant events == old(events) + Unwound(oracle, stack[i..])
      {
        i := i - 1;
        assert stack[i..][1..] == stack[i + 1..];
        events := events + [Cleanup(oracle, stack[i])];
      }
    }

    method DoTarget(t: Target, opts: DoOptions) returns (err: Option<Error>)
      modifies this
      ensures events == old(events) + TargetRun(oracle, opts, t).0
      ensures err == TargetRun(oracle, opts, t).1
    {
      var n := t.name;
      if n in oracle.biomeFails {
        return Some(Wrapped("target " + n + ": ", BiomeError(n), ""));
      }
      events := events + [BiomeCreated(n)];
      var deferred := [CloseBiome(n)];
      if n in oracle.phaseDepsFails || n in oracle.setupFails {
        if n !in oracle.phaseDepsFails {
          events := events + [SetupRun(n, opts.dockerNetworkId)];
        }
        err := if n in oracle.phaseDepsFails then Some(PhaseDepsError(n)) else Some(SetupError(n));
        RunDeferred(deferred);
        UnwindOne(oracle, CloseBiome(n));
        return;
      }
      events := events + [SetupRun(n, opts.dockerNetworkId)];
      deferred := [CloseBiome(n), CloseExecBiome(n)];
      if !opts.setupOnly {
        events := events + [ExecuteRun(n, opts.execPrefix, opts.dockerNetworkId)];
      }
      err := if !opts.setupOnly && n in oracle.executeFails then Some(ExecuteError(n)) else None;
      RunDeferred(deferred);
      UnwindOrder(oracle, n);
    }

    /** The loop of `doTargetList` over the targets, returning the first error. */
    method DoEach(targets: seq<Target>, opts: DoOptions) returns (err: Option<Error>)
      modifies this
      ensures events == old(events) + RunTargets(oracle, opts, targets).0
      ensures err == RunTargets(oracle, opts, targets).1
    {
      assert targets[..0] == [];
      for i := 0 to |targets|
        invariant events == old(events) + RunTargets(oracle, opts, targets[..i]).0
        invariant RunTargets(oracle, opts, targets[..i]).1.None?
      {
        RunTargetsStep(oracle, opts, targets, i);
        var e := DoTarget(targets[i], opts);
        if e.Some? {
          RunTargetsStops(oracle, opts, targets, i + 1);
          return e;
        }
      }
      assert targets[..|targets|] == targets;
      err := None;
    }

    method DoTargetList(targets: seq<Target>, opts: DoOptions) returns (err: Option<Error>)
      modifies this
      ensures events == old(events) + TargetListRun(oracle, opts, targets).0
      ensures err == TargetListRun(oracle, opts, targets).1
    {
      if |targets| == 0 {
        return None;
      }
      if opts.dockerClient && opts.dockerNetworkId == "" {
        if oracle.networkFails {
          return Some(NetworkError);
        }
        events := events + [NetworkCreated(oracle.networkId)];
        var deferred := [RemoveNetwork(oracle.networkId)];
        err := DoEach(targets, opts.(dockerNetworkId := oracle.networkId));
        RunDeferred(deferred);
        UnwindOne(oracle, RemoveNetwork(oracle.networkId));
      } else {
        err := DoEach(targets, opts);
      }
    }

    /** `run` from the build order on, as written: a failed build logs its failure and returns
      `err`, which at that point holds the build order's nil. */
    method RunAsWritten(order: Result<seq<Target>>, validTargets: seq<string>, opts: DoOptions) returns (err: Option<Error>)
      modifies this
      ensures (events, err) == (old(events) + RunAsWrittenResult(oracle, order, validTargets, opts).0,
                                RunAsWrittenResult(oracle, order, validTargets, opts).1)
    {
      if order.Err? {
        assert events == old(events) + [];
        return Some(OrderError(order.error, validTargets));
      }
      err := None;
      var buildError := DoTargetList(order.value, opts);
      if buildError.Some? {
        return err;
      }
      return None;
    }

    /** `run` returning the build's error, as its failure branch evidently means to. */
    method Run(order: Result<seq<Target>>, validTargets: seq<string>, opts: DoOptions) returns (err: Option<Error>)
      modifies this
      ensures (events, err) == (old(events) + RunResult(oracle, order, validTargets, opts).0,
                                RunResult(oracle, order, validTargets, opts).1)
    {
      if order.Err? {
        assert events == old(events) + [];
        return Some(OrderError(order.error, validTargets));
      }
      var buildError := DoTargetList(order.value, opts);
      if buildError.Some? {
        return buildError;
      }
      return None;
    }
  }

  /** The error of a build order that failed: the cause, then the valid targets. */
  function OrderError(e: Error, validTargets: seq<string>): (r: Error)
    ensures Message(r) == Message(e) + "\nValid build targets: " + Join(validTargets, ", ")
  {
    Wrapped("", e, "\nValid build targets: " + Join(validTargets, ", "))
  }

  function RunAsWrittenResult(o: DriverOracle, order: Result<seq<Target>>, validTargets: seq<string>, opts: DoOptions)
    : (seq<Event>, Option<Error>)
  {
    if order.Err? then ([], Some(OrderError(order.error, validTargets)))
    else (TargetListRun(o, opts, order.value).0, None)
  }

  function RunResult(o: DriverOracle, order: Result<seq<Target>>, validTargets: seq<string>, opts: DoOptions)
    : (seq<Event>, Option<Error>)
  {
    if order.Err? then ([], Some(OrderError(order.error, validTargets)))
    else TargetListRun(o, opts, order.value)
  }

  /** As written, a build whose only target fails to execute still returns nil. */
  lemma RunAsWrittenHidesFailure()
    ensures var o := DriverOracle(false, "", {}, {}, {}, {"default"}, {}, {});
      var opts := DoOptions(false, "", [], false);
      var order := Ok([Target("default")]);
      && TargetListRun(o, opts, order.value).1 == Some(ExecuteError("default"))
      && RunAsWrittenResult(o, order, [], opts).1 == None
  {
    var o := DriverOracle(false, "", {}, {}, {}, {"default"}, {}, {});
    var opts := DoOptions(false, "", [], false);
    var targets := [Target("default")];
    assert targets[..0] == [];
    assert RunTargets(o, opts, targets[..0]) == ([], None);
  }

  /** Corrected, `run` fails exactly when the build order or the build fails, and then returns
      that error; the events are the same either way. */
  lemma RunReportsFailure(o: DriverOracle, order: Result<seq<Target>>, validTargets: seq<string>, opts: DoOptions)
    ensures var (evs, err) := RunResult(o, order, validTargets, opts);
      && evs == RunAsWrittenResult(o, order, validTargets, opts).0
      && (order.Err? ==> err == Some(OrderError(order.error, validTargets)))
      && (order.Ok? ==> err == TargetListRun(o, opts, order.value).1)
      && (err.None? <==> order.Ok? && TargetListRun(o, opts, order.value).1.None?)
  {
  }
}
