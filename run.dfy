/**
 * The default test run of the newer plugin: obtain an instance, optionally
 * clear the module cache, register the (filtered) chunk files, run Mocha,
 * and in a `finally` block remove the files and call the final hook.
 */
module Orchestrator {
  import opened Outcomes
  import opened Host
  import opened Api
  import opened Paths
  import opened Events

  /**
   * The plugin options. A caller-supplied hook is modelled by how it settles
   * (an `Outcome`), `instance` by the instance it produces, and `filterFiles`
   * by a function from the collected list to the filtered list or an error.
   */
  datatype Options = Options(
    cache: bool,
    clear: bool,
    instance: Option<InstanceHook>,
    filterFiles: Option<seq<string> -> Result<seq<string>>>,
    runner: Option<Outcome>,
    finally: Option<Outcome>)

  /** The instance step: the caller's `instance()` if given, else `new Mocha()`. */
  function InstanceStep(options: Options): (hook: InstanceHook)
    ensures options.instance.None? ==> hook == FreshInstance
  {
    if options.instance.Some? then options.instance.value else FreshInstance
  }

  /** The objects a run may change besides the file system and what it allocates. */
  function InstanceObjects(options: Options): set<Mocha>
  {
    Instances(InstanceStep(options))
  }

  /** The registered files: `filterFiles(getFiles(bundle))` with a filter, else `getFiles(bundle)`. */
  function Registration(dir: string, bundle: Bundle, options: Options): Result<seq<string>>
  {
    var all := ChunkPaths(dir, bundle);
    if options.filterFiles.Some? then options.filterFiles.value(all) else Success(all)
  }

  /** The files that end up registered with the instance (none when the filter throws). */
  function RegisteredFiles(dir: string, bundle: Bundle, options: Options): seq<string>
  {
    var registration := Registration(dir, bundle, options);
    if registration.Success? then registration.value else []
  }

  /** Listeners the cache option adds to the instance. */
  function CacheListeners(options: Options): nat
  {
    if options.cache then 0 else 1
  }

  /** The `try` block: `mocha.run()`, the runner hook, then `api.run(runner)`. */
  function TryBlock(options: Options, env: RunEnv): (pending: (Outcome, seq<Event>))
  {
    if env.loadError.Some? then (Err(env.loadError.value), [StartRun])
    else if options.runner.Some? && options.runner.value.Err? then (options.runner.value, [StartRun, RunnerHook])
    else (TestRunOutcome(env.failures), [StartRun] + (if options.runner.Some? then [RunnerHook] else []) + [AwaitEnd])
  }

  /** The outcome of the clean-up step. */
  function CleanupOutcome(dir: string, files: seq<string>, options: Options, paths: set<string>, env: RunEnv): Removal
  {
    if options.clear then RemoveSpec(dir, paths, files, false, env.unlinkFails) else Removal(Ok, paths)
  }

  /** The steps the `finally` block takes: clean-up when `clear` is set, then the final hook unless clean-up failed. */
  function FinallyEvents(files: seq<string>, options: Options, removal: Removal): seq<Event>
  {
    (if options.clear then [Cleanup(files)] else [])
      + (if removal.outcome == Ok && options.finally.Some? then [FinallyHook] else [])
  }

  /**
   * The `finally` block, given how clean-up went, applied to the pending
   * outcome of the `try` block: an error from clean-up wins, then one from
   * the final hook, else the pending outcome stands.
   */
  function FinallyBlock(files: seq<string>, options: Options, removal: Removal, pending: Outcome, before: seq<Event>): RunResult
  {
    var outcome :=
      if removal.outcome.Err? then removal.outcome
      else if options.finally.Some? && options.finally.value.Err? then options.finally.value
      else pending;
    RunResult(before + FinallyEvents(files, options, removal), outcome, removal.paths)
  }

  /** The steps before the `try` block once an instance exists. */
  function PreparedTrace(dir: string, bundle: Bundle, options: Options): seq<Event>
  {
    [CreateInstance] + (if options.cache then [] else [AttachCacheClear])
      + [CollectFiles(ChunkPaths(dir, bundle))] + (if options.filterFiles.Some? then [FilterFiles] else [])
  }

  /** One run of `run(api, bundle, options)` from a file system holding `paths`. */
  function RunSpec(dir: string, bundle: Bundle, options: Options, paths: set<string>, env: RunEnv): RunResult
  {
    var instance := InstanceStep(options);
    if instance.InstanceFails? then RunResult([CreateInstance], Err(instance.error), paths)
    else
      var prepared := PreparedTrace(dir, bundle, options);
      var registration := Registration(dir, bundle, options);
      if registration.Failure? then RunResult(prepared, Err(registration.error), paths)
      else
        var files := registration.value;
        var tried := TryBlock(options, env);
        FinallyBlock(files, options, CleanupOutcome(dir, files, options, paths, env), tried.0,
                     prepared + [Register(files)] + tried.1)
  }

  /** The `try` block, step by step. */
  method TryPhase(options: Options, env: RunEnv) returns (pending: Outcome, events: seq<Event>)
    ensures (pending, events) == TryBlock(options, env)
  {
    events := [StartRun];
    if env.loadError.Some? {
      return Err(env.loadError.value), events;
    }
    pending := Ok;
    if options.runner.Some? {
      events := events + [RunnerHook];
      if options.runner.value.Err? {
        assert events == [StartRun, RunnerHook];
        return options.runner.value, events;
      }
    }
    assert events == [StartRun] + (if options.runner.Some? then [RunnerHook] else []);
    events := events + [AwaitEnd];
    pending := TestRunOutcome(env.failures);
  }

  /** The `finally` block, step by step: remove the files when `clear` is set, then the final hook. */
  method FinallyPhase(api: MochaApi, files: seq<string>, options: Options, fs: FileSystem, env: RunEnv,
                      pending: Outcome, before: seq<Event>)
    returns (r: Outcome, trace: seq<Event>)
    modifies fs
    ensures RunResult(trace, r, fs.paths) ==
      FinallyBlock(files, options, CleanupOutcome(api.dir, files, options, old(fs.paths), env), pending, before)
  {
    trace := before;
    if options.clear {
      trace := trace + [Cleanup(files)];
      var removed := api.RemoveFiles(files, false, fs, env.unlinkFails);
      if removed.Err? {
        return removed, trace;
      }
    }
    if options.finally.Some? {
      trace := trace + [FinallyHook];
      if options.finally.value.Err? {
        return options.finally.value, trace;
      }
    }
    r := pending;
  }

  /** The run, step by step, on the API object, the instance and the file system. */
  method Run(api: MochaApi, bundle: Bundle, options: Options, fs: FileSystem, env: RunEnv)
    returns (r: Outcome, trace: seq<Event>, mocha: Mocha?)
    modifies fs, InstanceObjects(options)
    ensures RunResult(trace, r, fs.paths) == RunSpec(api.dir, bundle, options, old(fs.paths), env)
    ensures mocha == null <==> InstanceStep(options).InstanceFails?
    ensures InstanceStep(options).Existing? ==>
      var m := InstanceStep(options).mocha;
      mocha == m &&
      m.requireListeners == old(m.requireListeners) + CacheListeners(options) &&
      m.files == old(m.files) + RegisteredFiles(api.dir, bundle, options)
    ensures InstanceStep(options).FreshInstance? ==>
      mocha != null && fresh(mocha) &&
      mocha.requireListeners == CacheListeners(options) &&
      mocha.files == RegisteredFiles(api.dir, bundle, options)
  {
    trace := [CreateInstance];
    match InstanceStep(options) {
      case InstanceFails(e) =>
        return Err(e), trace, null;
      case Existing(m) =>
        mocha := m;
      case FreshInstance =>
        mocha := new Mocha();
    }
    if !options.cache {
      var _ := api.NoCache(mocha);
      trace := trace + [AttachCacheClear];
    }
    var allFiles := api.GetFiles(bundle);
    trace := trace + [CollectFiles(allFiles)];
    var files := allFiles;
    if options.filterFiles.Some? {
      trace := trace + [FilterFiles];
      var filtered := options.filterFiles.value(allFiles);
      if filtered.Failure? {
        return Err(filtered.error), trace, mocha;
      }
      files := filtered.value;
    }
    assert trace == PreparedTrace(api.dir, bundle, options);
    assert Registration(api.dir, bundle, options) == Success(files);
    var _ := api.AddFiles(files, mocha);
    trace := trace + [Register(files)];
    var pending, tried := TryPhase(options, env);
    r, trace := FinallyPhase(api, files, options, fs, env, pending, trace + tried);
  }

  /** The steps before the `try` block occur in order, ahead of the registration. */
  lemma PreparedRanked(dir: string, bundle: Bundle, options: Options)
    ensures Ranked(PreparedTrace(dir, bundle, options), 0, 4)
  {
  }

  /** The steps of the `try` block occur in order, after the registration and before clean-up. */
  lemma TryRanked(options: Options, env: RunEnv)
    ensures Ranked(TryBlock(options, env).1, 5, 8)
  {
    var events := TryBlock(options, env).1;
    if env.loadError.Some? {
      assert events == [StartRun];
    } else if options.runner.Some? && options.runner.value.Err? {
      assert events == [StartRun, RunnerHook];
    } else if options.runner.Some? {
      assert events == [StartRun, RunnerHook, AwaitEnd];
    } else {
      assert events == [StartRun, AwaitEnd];
    }
  }

  /** The steps of the `finally` block, one case at a time. */
  lemma FinallyEventsCases(files: seq<string>, options: Options, removal: Removal)
    ensures var hook := removal.outcome == Ok && options.finally.Some?;
      FinallyEvents(files, options, removal) ==
        if options.clear && hook then [Cleanup(files), FinallyHook]
        else if options.clear then [Cleanup(files)]
        else if hook then [FinallyHook]
        else []
  {
  }

  /** Clean-up comes before the final hook. */
  lemma FinallyEventsRanked(files: seq<string>, options: Options, removal: Removal)
    ensures Ranked(FinallyEvents(files, options, removal), 8, 10)
  {
    var cleanup: seq<Event> := if options.clear then [Cleanup(files)] else [];
    var hook: seq<Event> := if removal.outcome == Ok && options.finally.Some? then [FinallyHook] else [];
    assert Ranked(cleanup, 8, 9);
    assert Ranked(hook, 9, 10);
    RankedAppend(cleanup, hook, 8, 9, 10);
  }

  /** Clean-up is a step exactly when `clear` is set. */
  lemma FinallyCleanupWhenClear(files: seq<string>, options: Options, removal: Removal)
    ensures var events := FinallyEvents(files, options, removal);
      (Cleanup(files) in events <==> options.clear)
  {
    FinallyEventsCases(files, options, removal);
  }

  /** Clean-up is only ever called with the registered files. */
  lemma FinallyCleanupFiles(files: seq<string>, options: Options, removal: Removal)
    ensures var events := FinallyEvents(files, options, removal);
      (forall other :: Cleanup(other) in events ==> other == files)
  {
    FinallyEventsCases(files, options, removal);
  }

  /** The final hook is called exactly when one is given and clean-up did not fail. */
  lemma FinallyHookWhenCleaned(files: seq<string>, options: Options, removal: Removal)
    ensures var events := FinallyEvents(files, options, removal);
      (FinallyHook in events <==> options.finally.Some? && removal.outcome == Ok)
  {
    FinallyEventsCases(files, options, removal);
  }

  /**
   * The `finally` block takes at most one clean-up step, with the registered
   * files, exactly when `clear` is set, and the final hook exactly when one
   * is given and clean-up did not fail, in that order.
   */
  lemma FinallyEventsSteps(files: seq<string>, options: Options, removal: Removal)
    ensures var events := FinallyEvents(files, options, removal);
      Ranked(events, 8, 10) &&
      (Cleanup(files) in events <==> options.clear) &&
      (forall other :: Cleanup(other) in events ==> other == files) &&
      (FinallyHook in events <==> options.finally.Some? && removal.outcome == Ok)
  {
    FinallyEventsRanked(files, options, removal);
    FinallyCleanupWhenClear(files, options, removal);
    FinallyCleanupFiles(files, options, removal);
    FinallyHookWhenCleaned(files, options, removal);
  }

  /** A step whose rank lies outside a trace's rank range does not occur in it. */
  lemma NotRanked(trace: seq<Event>, lo: nat, hi: nat, e: Event)
    requires Ranked(trace, lo, hi) && !(lo <= Rank(e) < hi)
    ensures e !in trace
  {
  }

  /** Once the files are registered, a run is the `finally` block applied to everything before it. */
  lemma RunSpecUnfolds(dir: string, bundle: Bundle, options: Options, paths: set<string>, env: RunEnv, files: seq<string>)
    requires !InstanceStep(options).InstanceFails? && Registration(dir, bundle, options) == Success(files)
    ensures Ranked(PreparedTrace(dir, bundle, options) + [Register(files)] + TryBlock(options, env).1, 0, 8)
    ensures RunSpec(dir, bundle, options, paths, env) ==
      FinallyBlock(files, options, CleanupOutcome(dir, files, options, paths, env), TryBlock(options, env).0,
                   PreparedTrace(dir, bundle, options) + [Register(files)] + TryBlock(options, env).1)
  {
    PreparedRanked(dir, bundle, options);
    TryRanked(options, env);
    RankedAppend(PreparedTrace(dir, bundle, options), [Register(files)], 0, 4, 5);
    RankedAppend(PreparedTrace(dir, bundle, options) + [Register(files)], TryBlock(options, env).1, 0, 5, 8);
  }

  /** The steps always occur in the fixed order, each at most once. */
  lemma RunStepsInOrder(dir: string, bundle: Bundle, options: Options, paths: set<string>, env: RunEnv)
    ensures InOrder(RunSpec(dir, bundle, options, paths, env).trace)
  {
    if !InstanceStep(options).InstanceFails? {
      var registration := Registration(dir, bundle, options);
      if registration.Success? {
        var files := registration.value;
        var before := PreparedTrace(dir, bundle, options) + [Register(files)] + TryBlock(options, env).1;
        var removal := CleanupOutcome(dir, files, options, paths, env);
        RunSpecUnfolds(dir, bundle, options, paths, env, files);
        FinallyEventsSteps(files, options, removal);
        RankedAppend(before, FinallyEvents(files, options, removal), 0, 8, 10);
      } else {
        PreparedRanked(dir, bundle, options);
      }
    }
  }

  /**
   * A failure of `instance()` or of `filterFiles` happens before the `try`:
   * Mocha is not run, nothing is removed and the final hook is not called.
   */
  lemma RunFailsBeforeTry(dir: string, bundle: Bundle, options: Options, paths: set<string>, env: RunEnv)
    requires InstanceStep(options).InstanceFails? || Registration(dir, bundle, options).Failure?
    ensures var s := RunSpec(dir, bundle, options, paths, env);
      StartRun !in s.trace && FinallyHook !in s.trace &&
      (forall files :: Cleanup(files) !in s.trace) &&
      s.paths == paths
    ensures InstanceStep(options).InstanceFails? ==>
      RunSpec(dir, bundle, options, paths, env).outcome == Err(InstanceStep(options).error)
    ensures !InstanceStep(options).InstanceFails? ==>
      RunSpec(dir, bundle, options, paths, env).outcome == Err(Registration(dir, bundle, options).error)
  {
  }

  /** Once an instance exists, the cache-clearing listener is attached exactly when `cache` is false. */
  lemma RunCacheGate(dir: string, bundle: Bundle, options: Options, paths: set<string>, env: RunEnv)
    requires !InstanceStep(options).InstanceFails?
    ensures AttachCacheClear in RunSpec(dir, bundle, options, paths, env).trace <==> !options.cache
  {
  }

  /** The files registered are the filter's result when a filter is given, else all chunk files. */
  lemma RunRegistersFiltered(dir: string, bundle: Bundle, options: Options, paths: set<string>, env: RunEnv)
    requires !InstanceStep(options).InstanceFails?
    ensures var trace := RunSpec(dir, bundle, options, paths, env).trace;
      options.filterFiles.None? ==> Register(ChunkPaths(dir, bundle)) in trace
    ensures var trace := RunSpec(dir, bundle, options, paths, env).trace;
      var filtered := if options.filterFiles.Some? then options.filterFiles.value(ChunkPaths(dir, bundle)) else Success([]);
      options.filterFiles.Some? && filtered.Success? ==> Register(filtered.value) in trace
  {
  }

  /**
   * Once Mocha has been run, the clean-up step follows exactly when `clear`
   * is set, always with the registered files, and the final hook is called
   * exactly when one is given and clean-up did not fail.
   */
  lemma RunFinallyPhase(dir: string, bundle: Bundle, options: Options, paths: set<string>, env: RunEnv, files: seq<string>)
    requires !InstanceStep(options).InstanceFails?
    requires Registration(dir, bundle, options) == Success(files)
    ensures var trace := RunSpec(dir, bundle, options, paths, env).trace;
      StartRun in trace &&
      (Cleanup(files) in trace <==> options.clear) &&
      (forall other :: Cleanup(other) in trace ==> other == files)
    ensures FinallyHook in RunSpec(dir, bundle, options, paths, env).trace <==>
      options.finally.Some? && CleanupOutcome(dir, files, options, paths, env).outcome == Ok
  {
    var before := PreparedTrace(dir, bundle, options) + [Register(files)] + TryBlock(options, env).1;
    var removal := CleanupOutcome(dir, files, options, paths, env);
    RunSpecUnfolds(dir, bundle, options, paths, env, files);
    FinallyEventsSteps(files, options, removal);
    assert before[|PreparedTrace(dir, bundle, options) + [Register(files)]|] == StartRun;
    NotRanked(before, 0, 8, FinallyHook);
    forall other
      ensures Cleanup(other) !in before
    {
      NotRanked(before, 0, 8, Cleanup(other));
    }
  }

  /**
   * In steps made of earlier ones, the `try` block's steps with the runner
   * hook, and later ones, the hook comes before the wait for 'end', which
   * occurs exactly when the hook succeeded.
   */
  lemma HookPrecedesEnd(prefix: seq<Event>, tried: seq<Event>, extra: seq<Event>, hookOk: bool)
    requires Ranked(prefix, 0, 5) && Ranked(extra, 8, 10)
    requires tried == [StartRun, RunnerHook] + (if hookOk then [AwaitEnd] else [])
    ensures var trace := prefix + tried + extra;
      RunnerHook in trace &&
      (AwaitEnd in trace <==> hookOk) &&
      forall i, j :: 0 <= i < |trace| && 0 <= j < |trace| && trace[i] == RunnerHook && trace[j] == AwaitEnd ==> i < j
  {
    assert Ranked(tried, 5, 8);
    RankedAppend(prefix, tried, 0, 5, 8);
    RankedAppend(prefix + tried, extra, 0, 8, 10);
    NotRanked(prefix, 0, 5, AwaitEnd);
    NotRanked(extra, 8, 10, AwaitEnd);
    assert tried[1] == RunnerHook;
    RankOrdersSteps(prefix + tried + extra, RunnerHook, AwaitEnd);
  }

  /** The runner hook sees the runner before the failure count at 'end' is awaited. */
  lemma RunnerHookBeforeEnd(dir: string, bundle: Bundle, options: Options, paths: set<string>, env: RunEnv)
    requires !InstanceStep(options).InstanceFails? && Registration(dir, bundle, options).Success?
    requires env.loadError.None? && options.runner.Some?
    ensures var trace := RunSpec(dir, bundle, options, paths, env).trace;
      RunnerHook in trace &&
      (AwaitEnd in trace <==> options.runner.value == Ok) &&
      forall i, j :: 0 <= i < |trace| && 0 <= j < |trace| && trace[i] == RunnerHook && trace[j] == AwaitEnd ==> i < j
  {
    var files := Registration(dir, bundle, options).value;
    var prefix := PreparedTrace(dir, bundle, options) + [Register(files)];
    var removal := CleanupOutcome(dir, files, options, paths, env);
    RunSpecUnfolds(dir, bundle, options, paths, env, files);
    PreparedRanked(dir, bundle, options);
    RankedAppend(PreparedTrace(dir, bundle, options), [Register(files)], 0, 4, 5);
    FinallyEventsSteps(files, options, removal);
    HookPrecedesEnd(prefix, TryBlock(options, env).1, FinallyEvents(files, options, removal), options.runner.value == Ok);
  }

  /**
   * The run succeeds exactly when every step succeeds: the instance, the
   * filter, loading, the runner hook, zero failures, clean-up and the final hook.
   */
  lemma RunSucceedsIff(dir: string, bundle: Bundle, options: Options, paths: set<string>, env: RunEnv)
    ensures RunSpec(dir, bundle, options, paths, env).outcome == Ok <==>
      !InstanceStep(options).InstanceFails? &&
      Registration(dir, bundle, options).Success? &&
      env.loadError.None? &&
      (options.runner.None? || options.runner.value == Ok) &&
      env.failures == 0 &&
      CleanupOutcome(dir, Registration(dir, bundle, options).value, options, paths, env).outcome == Ok &&
      (options.finally.None? || options.finally.value == Ok)
  {
  }

  /**
   * An error from clean-up replaces the test outcome and skips the final
   * hook; otherwise failing tests reject with their count, whatever `clear` is.
   */
  lemma RunErrorPrecedence(dir: string, bundle: Bundle, options: Options, paths: set<string>, env: RunEnv, files: seq<string>)
    requires !InstanceStep(options).InstanceFails?
    requires Registration(dir, bundle, options) == Success(files)
    ensures var removal := CleanupOutcome(dir, files, options, paths, env);
      var s := RunSpec(dir, bundle, options, paths, env);
      removal.outcome.Err? ==> s.outcome == removal.outcome && FinallyHook !in s.trace
    ensures var removal := CleanupOutcome(dir, files, options, paths, env);
      var s := RunSpec(dir, bundle, options, paths, env);
      removal.outcome == Ok && env.loadError.None? && (options.runner.None? || options.runner.value == Ok) &&
      (options.finally.None? || options.finally.value == Ok) && env.failures > 0
      ==> s.outcome == Err(TestsFailed(env.failures))
  {
    var before := PreparedTrace(dir, bundle, options) + [Register(files)] + TryBlock(options, env).1;
    var removal := CleanupOutcome(dir, files, options, paths, env);
    RunSpecUnfolds(dir, bundle, options, paths, env, files);
    FinallyHookWhenCleaned(files, options, removal);
    NotRanked(before, 0, 8, FinallyHook);
  }

  /**
   * Without `clear` the file system is unchanged; with it, a successful
   * clean-up leaves none of the registered files and every other path as it was.
   */
  lemma RunClearsRegisteredFiles(dir: string, bundle: Bundle, options: Options, paths: set<string>, env: RunEnv, files: seq<string>)
    requires !InstanceStep(options).InstanceFails?
    requires Registration(dir, bundle, options) == Success(files)
    ensures !options.clear ==> RunSpec(dir, bundle, options, paths, env).paths == paths
    ensures options.clear && CleanupOutcome(dir, files, options, paths, env).outcome == Ok ==>
      var after := RunSpec(dir, bundle, options, paths, env).paths;
      (forall j :: 0 <= j < |files| ==> files[j] !in after) &&
      (forall p :: p !in files ==> (p in after <==> p in paths))
  {
    if options.clear && CleanupOutcome(dir, files, options, paths, env).outcome == Ok {
      RemoveDeletesExactly(dir, paths, files, false, env.unlinkFails);
    }
  }

  /** The options record when the plugin is called with no argument. */
  const DefaultOptions := Options(false, false, None, None, None, None)

  /** The bundle of the end-to-end examples: two chunks around an asset. */
  const ExampleBundle: Bundle := [Output("index.js", Chunk), Output("asset.js", Asset), Output("chunk.js", Chunk)]

  /**
   * The example bundle's chunk files in bundle order, without the asset:
   * bare names for an API built without output options, and under "tmp".
   */
  lemma ExampleChunkPaths()
    ensures ChunkPaths(OutputDir(None), ExampleBundle) == ["index.js", "chunk.js"]
    ensures ChunkPaths("tmp", ExampleBundle) == ["tmp/index.js", "tmp/chunk.js"]
  {
    var first := [Output("index.js", Chunk)];
    assert ExampleBundle[..2] == first + [Output("asset.js", Asset)];
    assert ExampleBundle[..2][..1] == first;
    assert first[..0] == [];
    forall dir | dir == "" || dir == "tmp"
      ensures ChunkPaths(dir, ExampleBundle) == [Join(dir, "index.js"), Join(dir, "chunk.js")]
    {
      assert ChunkPaths(dir, first) == [Join(dir, "index.js")];
      assert ChunkPaths(dir, ExampleBundle[..2]) == [Join(dir, "index.js")];
    }
    assert OutputDir(None) == "";
    assert Join("tmp", "index.js") == "tmp/index.js" && Join("tmp", "chunk.js") == "tmp/chunk.js";
  }

  /**
   * Output directory "tmp", no filter, passing tests: the runner receives
   * "tmp/index.js" and "tmp/chunk.js"; without `clear` both stay, with
   * `clear` neither exists afterwards.
   */
  lemma EndToEndExample(paths: set<string>)
    requires "tmp/index.js" in paths && "tmp/chunk.js" in paths
    ensures var env := RunEnv(None, 0, {});
      var kept := RunSpec("tmp", ExampleBundle, DefaultOptions, paths, env);
      Register(["tmp/index.js", "tmp/chunk.js"]) in kept.trace &&
      kept.outcome == Ok && kept.paths == paths
    ensures var env := RunEnv(None, 0, {});
      var cleared := RunSpec("tmp", ExampleBundle, DefaultOptions.(clear := true), paths, env);
      cleared.outcome == Ok && "tmp/index.js" !in cleared.paths && "tmp/chunk.js" !in cleared.paths
  {
    var env := RunEnv(None, 0, {});
    var files := ["tmp/index.js", "tmp/chunk.js"];
    var clearing := DefaultOptions.(clear := true);
    ExampleChunkPaths();
    RunSpecUnfolds("tmp", ExampleBundle, DefaultOptions, paths, env, files);
    RunSpecUnfolds("tmp", ExampleBundle, clearing, paths, env, files);
    var before := PreparedTrace("tmp", ExampleBundle, DefaultOptions) + [Register(files)] + TryBlock(DefaultOptions, env).1;
    assert before[|PreparedTrace("tmp", ExampleBundle, DefaultOptions)|] == Register(files);
    CollectedFilesPassGuard("tmp", ExampleBundle);
    assert FirstFailing(paths, files, {}).None?;
    assert RemoveSpec("tmp", paths, files, false, {}).outcome == Ok;
    RemoveDeletesExactly("tmp", paths, files, false, {});
    assert files[0] == "tmp/index.js" && files[1] == "tmp/chunk.js";
  }
}
