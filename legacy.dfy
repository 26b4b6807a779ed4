/**
 * The older plugin entry point: options defaulted key by key, a file list
 * kept across the render hooks, and a test run that always removes the
 * files afterwards unless the caller replaces the removal step.
 */
module Legacy {
  import opened Outcomes
  import opened Paths
  import opened Host
  import opened Api
  import opened Events

  /** The option keys. */
  datatype Key = NoClearCache | Instance | AddFiles | Runner | RemoveFiles | Done | RunKey

  /** The keys the defaulting loop visits, in order; `run` is handled after it. */
  const DefaultedKeys: seq<Key> := [NoClearCache, Instance, AddFiles, Runner, RemoveFiles, Done]

  /**
   * The add-files step: the default loop, or the caller's, modelled by the
   * files it registers with the instance given the file names, and by whether
   * it then returns a list, returns nothing, or throws.
   */
  datatype AddFilesHook =
    | DefaultAddFiles
    | CustomAddFiles(result: Result<Option<seq<string>>>, register: seq<string> -> seq<string>)

  /** What the runner hook does with the `resolve`/`reject` it is given before 'end' fires. */
  datatype RunnerAction = Idle | Settles(outcome: Outcome)

  /**
   * The remove-files step: the default unlink of every file, or the caller's,
   * modelled by how it settles and by the paths that exist after it, given
   * those that exist before.
   */
  datatype RemoveHook = DefaultRemove | CustomRemove(outcome: Outcome, after: set<string> -> set<string>)

  /** The run step: the default promise around `mocha.run()`, or the caller's. */
  datatype RunHook = DefaultRun | CustomRun(outcome: Outcome)

  /** The value of one option key. */
  datatype Value =
    | Undefined
    | Flag(on: bool)
    | InstanceFn(instance: InstanceHook)
    | AddFilesFn(addFiles: AddFilesHook)
    | RunnerFn(runner: RunnerAction)
    | RemoveFilesFn(removeFiles: RemoveHook)
    | DoneFn(done: Outcome)
    | RunFn(run: RunHook)

  /** The options a caller passes; a missing key is `undefined`. */
  type UserOptions = map<Key, Value>

  /** JavaScript truthiness of an option value: functions are truthy, `false` and `undefined` are not. */
  predicate Truthy(v: Value)
  {
    match v
    case Undefined => false
    case Flag(on) => on
    case _ => true
  }

  /** The default of each key. */
  function DefaultValue(k: Key): Value
  {
    match k
    case NoClearCache => Flag(false)
    case Instance => InstanceFn(FreshInstance)
    case AddFiles => AddFilesFn(DefaultAddFiles)
    case Runner => RunnerFn(Idle)
    case RemoveFiles => RemoveFilesFn(DefaultRemove)
    case Done => DoneFn(Ok)
    case RunKey => RunFn(DefaultRun)
  }

  /** The value has the type its key declares. */
  predicate Fits(k: Key, v: Value)
  {
    match k
    case NoClearCache => v.Flag?
    case Instance => v.InstanceFn?
    case AddFiles => v.AddFilesFn?
    case Runner => v.RunnerFn?
    case RemoveFiles => v.RemoveFilesFn?
    case Done => v.DoneFn?
    case RunKey => v.RunFn?
  }

  /** Caller options as the declared interface types them. */
  predicate WellTyped(options: UserOptions)
  {
    forall k :: k in options ==> options[k].Undefined? || Fits(k, options[k])
  }

  /** Every key has a value of its type. */
  predicate Resolved(opts: map<Key, Value>)
  {
    forall k: Key :: k in opts && Fits(k, opts[k])
  }

  /** `opts[key]`, `undefined` for a missing key. */
  function Lookup(opts: map<Key, Value>, k: Key): Value
  {
    if k in opts then opts[k] else Undefined
  }

  /** `options[key] || defaultOptions[key]`. */
  function Pick(options: UserOptions, k: Key): Value
  {
    if k in options && Truthy(options[k]) then options[k] else DefaultValue(k)
  }

  /** The options as `getOptions` builds them: `run` is never copied from the caller. */
  function AsWrittenOptions(options: UserOptions): map<Key, Value>
  {
    (map k | k in DefaultedKeys :: Pick(options, k))[RunKey := DefaultValue(RunKey)]
  }

  /** The options as evidently intended: `run` is the caller's when truthy, else the default. */
  function IntendedOptions(options: UserOptions): map<Key, Value>
  {
    (map k | k in DefaultedKeys :: Pick(options, k))[RunKey := Pick(options, RunKey)]
  }

  /** `getOptions`: the defaulting loop over six keys, then `opts.run ||= defaultRun`. */
  method GetOptions(options: UserOptions) returns (opts: map<Key, Value>)
    ensures opts == AsWrittenOptions(options)
  {
    opts := map[];
    for i := 0 to |DefaultedKeys|
      invariant opts == map k | k in DefaultedKeys[..i] :: Pick(options, k)
    {
      var key := DefaultedKeys[i];
      opts := opts[key := if key in options && Truthy(options[key]) then options[key] else DefaultValue(key)];
      assert DefaultedKeys[..i + 1] == DefaultedKeys[..i] + [key];
    }
    assert DefaultedKeys[..|DefaultedKeys|] == DefaultedKeys;
    assert RunKey !in opts;
    if !Truthy(Lookup(opts, RunKey)) {
      opts := opts[RunKey := DefaultValue(RunKey)];
    }
  }

  /** `getOptions` with the caller's `run` copied before the `||=` default. */
  method ResolveOptions(options: UserOptions) returns (opts: map<Key, Value>)
    ensures opts == IntendedOptions(options)
  {
    opts := GetOptions(options);
    opts := opts[RunKey := Pick(options, RunKey)];
  }

  /**
   * Each of the six defaulted keys takes the caller's value when truthy,
   * else its default, in both versions; well-typed caller options resolve
   * every key to a value of its type.
   */
  lemma OptionsDefaulting(options: UserOptions, k: Key)
    requires k in DefaultedKeys
    ensures k in AsWrittenOptions(options) && k in IntendedOptions(options)
    ensures AsWrittenOptions(options)[k] == IntendedOptions(options)[k]
    ensures AsWrittenOptions(options)[k] == (if k in options && Truthy(options[k]) then options[k] else DefaultValue(k))
  {
  }

  /** Well-typed caller options resolve every key to a value of its type. */
  lemma IntendedOptionsResolved(options: UserOptions)
    requires WellTyped(options)
    ensures Resolved(IntendedOptions(options))
    ensures Resolved(AsWrittenOptions(options))
  {
    var opts := IntendedOptions(options);
    forall k: Key
      ensures k in opts && Fits(k, opts[k])
    {
      assert k == RunKey || k in DefaultedKeys;
    }
    var written := AsWrittenOptions(options);
    forall k: Key
      ensures k in written && Fits(k, written[k])
    {
      assert k == RunKey || k in DefaultedKeys;
    }
  }

  /** As written, a caller's `run` option is ignored: the default run is always installed. */
  lemma CallerRunIgnored(options: UserOptions)
    requires RunKey in options && options[RunKey].RunFn? && options[RunKey].run.CustomRun?
    ensures AsWrittenOptions(options)[RunKey] == RunFn(DefaultRun) != options[RunKey]
  {
  }

  /** As intended, a caller's `run` option replaces the default. */
  lemma CallerRunKept(options: UserOptions)
    ensures RunKey in options && options[RunKey].RunFn? ==> IntendedOptions(options)[RunKey] == options[RunKey]
    ensures RunKey !in options ==> IntendedOptions(options)[RunKey] == RunFn(DefaultRun)
  {
  }

  /** `opts.dir || dirname(opts.file || '')`. */
  function LegacyDir(output: OutputOptions): string
  {
    if output.dir != "" then output.dir else Dirname(output.file)
  }

  /** The two plugins join a non-empty name onto the same path, although their directories differ when nothing is set. */
  lemma LegacyDirJoinsLikeApi(output: OutputOptions, name: string)
    requires name != ""
    ensures Join(LegacyDir(output), name) == Join(OutputDir(Some(output)), name)
  {
    if output.dir == "" && output.file == "" {
      assert LegacyDir(output) == "." by {
        assert LastSlash("") == -1;
      }
    }
  }

  /** Every bundle key, assets included, joined with `dir`, in bundle order. */
  function BundlePaths(dir: string, bundle: Bundle): seq<string>
  {
    if bundle == [] then []
    else BundlePaths(dir, bundle[..|bundle| - 1]) + [Join(dir, bundle[|bundle| - 1].fileName)]
  }

  /** One path per entry, at the entry's position. */
  lemma {:induction false} BundlePathsAt(dir: string, bundle: Bundle)
    ensures |BundlePaths(dir, bundle)| == |bundle|
    ensures forall i :: 0 <= i < |bundle| ==> BundlePaths(dir, bundle)[i] == Join(dir, bundle[i].fileName)
  {
    if bundle != [] {
      var n := |bundle| - 1;
      BundlePathsAt(dir, bundle[..n]);
      forall i | 0 <= i < n
        ensures BundlePaths(dir, bundle)[i] == Join(dir, bundle[i].fileName)
      {
        assert bundle[..n][i] == bundle[i];
      }
    }
  }

  /** On a bundle of chunks only, the older plugin collects the same files as the API. */
  lemma {:induction false} ChunksOnlyAgree(dir: string, bundle: Bundle)
    requires forall i :: 0 <= i < |bundle| ==> bundle[i].kind == Chunk
    ensures BundlePaths(dir, bundle) == ChunkPaths(dir, bundle)
  {
    if bundle != [] {
      var n := |bundle| - 1;
      ChunksOnlyAgree(dir, bundle[..n]);
    }
  }

  /**
   * The default `removeFiles`: unlink every file, whether or not it exists.
   * A missing path rejects with not-found, a path in `failing` with an I/O
   * error; the other unlinks still happen and the first error is reported.
   */
  function UnlinkEach(paths: set<string>, files: seq<string>, failing: set<string>): Removal
  {
    if files == [] then Removal(Ok, paths)
    else
      var prev := UnlinkEach(paths, files[..|files| - 1], failing);
      var file := files[|files| - 1];
      var step := if file !in prev.paths then Err(NotFound(file)) else if file in failing then Err(IoError(file)) else Ok;
      Removal(if prev.outcome.Err? then prev.outcome else step,
              if step == Ok then prev.paths - {file} else prev.paths)
  }

  /** Every listed path whose unlink does not fail is gone; nothing else changes. */
  lemma {:induction false} UnlinkEachPaths(paths: set<string>, files: seq<string>, failing: set<string>)
    ensures UnlinkEach(paths, files, failing).paths == paths - set f | f in files && f !in failing
  {
    if files != [] {
      var n := |files| - 1;
      UnlinkEachPaths(paths, files[..n], failing);
      assert forall f :: f in files <==> f in files[..n] || f == files[n];
    }
  }

  /**
   * Unlike the API's `removeFiles`, the default removal succeeds only when
   * every listed file exists, none fails, and none is listed twice.
   */
  lemma {:induction false} UnlinkEachSucceedsIff(paths: set<string>, files: seq<string>, failing: set<string>)
    ensures UnlinkEach(paths, files, failing).outcome == Ok <==>
      (forall j :: 0 <= j < |files| ==> files[j] in paths && files[j] !in failing) &&
      (forall i, j :: 0 <= i < j < |files| ==> files[i] != files[j])
  {
    if files != [] {
      var n := |files| - 1;
      var init := files[..n];
      UnlinkEachSucceedsIff(paths, init, failing);
      UnlinkEachPaths(paths, init, failing);
      assert forall j :: 0 <= j < n ==> files[j] == init[j];
      assert files[n] in init <==> exists i :: 0 <= i < n && files[i] == files[n];
    }
  }

  /** The files the add-files step registers with the instance: all of them by default. */
  function RegisteredBy(hook: AddFilesHook, testFiles: seq<string>): seq<string>
  {
    if hook.DefaultAddFiles? then testFiles else hook.register(testFiles)
  }

  /** The add-files step's result: the default registers the files and returns nothing. */
  function AddFilesResult(hook: AddFilesHook): Result<Option<seq<string>>>
  {
    if hook.DefaultAddFiles? then Success(None) else hook.result
  }

  /** `await opts.run(mocha)`. */
  function LegacyTry(opts: map<Key, Value>, env: RunEnv): (Outcome, seq<Event>)
    requires Resolved(opts)
  {
    match opts[RunKey].run
    case CustomRun(outcome) => (outcome, [StartRun])
    case DefaultRun =>
      if env.loadError.Some? then (Err(env.loadError.value), [StartRun])
      else match opts[Runner].runner
        case Idle => (TestRunOutcome(env.failures), [StartRun, RunnerHook, AwaitEnd])
        case Settles(outcome) => (outcome, [StartRun, RunnerHook])
  }

  /** `await opts.removeFiles(files, mocha)`. */
  function LegacyCleanup(opts: map<Key, Value>, files: seq<string>, paths: set<string>, env: RunEnv): Removal
    requires Resolved(opts)
  {
    match opts[RemoveFiles].removeFiles
    case DefaultRemove => UnlinkEach(paths, files, env.unlinkFails)
    case CustomRemove(outcome, after) => Removal(outcome, after(paths))
  }

  /** The steps of the `finally` block: the remove-files step always, then `done` unless removal failed. */
  function LegacyFinallyEvents(files: seq<string>, removal: Removal): seq<Event>
  {
    [Cleanup(files)] + (if removal.outcome == Ok then [FinallyHook] else [])
  }

  /**
   * The `finally` block, given how removal went: an error from removal wins,
   * then one from `done`, else the pending outcome stands.
   */
  function LegacyFinally(opts: map<Key, Value>, files: seq<string>, removal: Removal, pending: Outcome, before: seq<Event>): RunResult
    requires Resolved(opts)
  {
    var outcome :=
      if removal.outcome.Err? then removal.outcome
      else if opts[Done].done.Err? then opts[Done].done
      else pending;
    RunResult(before + LegacyFinallyEvents(files, removal), outcome, removal.paths)
  }

  /** The files removed after the run: the add-files result if it returned a list, else the copy. */
  function FilesToRemove(opts: map<Key, Value>, testFiles: seq<string>): seq<string>
    requires Resolved(opts)
  {
    var added := AddFilesResult(opts[AddFiles].addFiles);
    if added.Success? && added.value.Some? then added.value.value else testFiles
  }

  /**
   * Any list the add-files step returns replaces the copy, even an empty one
   * (an array is always truthy); returning nothing keeps the copy.
   */
  lemma ReturnedListReplacesCopy(opts: map<Key, Value>, testFiles: seq<string>)
    requires Resolved(opts)
    ensures AddFilesResult(opts[AddFiles].addFiles) == Success(Some([])) ==> FilesToRemove(opts, testFiles) == []
    ensures AddFilesResult(opts[AddFiles].addFiles) == Success(None) ==> FilesToRemove(opts, testFiles) == testFiles
    ensures opts[AddFiles].addFiles.DefaultAddFiles? ==> FilesToRemove(opts, testFiles) == testFiles
  {
  }

  /** The steps before the `try` block once an instance exists. */
  function LegacyPrepared(opts: map<Key, Value>, testFiles: seq<string>): seq<Event>
  {
    [CreateInstance] + (if NoClearCache in opts && Truthy(opts[NoClearCache]) then [] else [AttachCacheClear])
      + [Register(testFiles)]
  }

  /** One `runTest` on the accumulated `bundleFiles`, from a file system holding `paths`. */
  function LegacyRunSpec(opts: map<Key, Value>, bundleFiles: seq<string>, paths: set<string>, env: RunEnv): RunResult
    requires Resolved(opts)
  {
    var instance := opts[Instance].instance;
    if instance.InstanceFails? then RunResult([CreateInstance], Err(instance.error), paths)
    else
      var prepared := LegacyPrepared(opts, bundleFiles);
      var added := AddFilesResult(opts[AddFiles].addFiles);
      if added.Failure? then RunResult(prepared, Err(added.error), paths)
      else
        var files := FilesToRemove(opts, bundleFiles);
        var tried := LegacyTry(opts, env);
        LegacyFinally(opts, files, LegacyCleanup(opts, files, paths, env), tried.0, prepared + tried.1)
  }

  /** The steps before the `try` block occur in order. */
  lemma LegacyPreparedRanked(opts: map<Key, Value>, testFiles: seq<string>)
    ensures Ranked(LegacyPrepared(opts, testFiles), 0, 5)
  {
    var cache: seq<Event> := if NoClearCache in opts && Truthy(opts[NoClearCache]) then [] else [AttachCacheClear];
    assert Ranked([CreateInstance], 0, 1) && Ranked(cache, 1, 2) && Ranked([Register(testFiles)], 4, 5);
    RankedAppend([CreateInstance], cache, 0, 1, 2);
    RankedAppend([CreateInstance] + cache, [Register(testFiles)], 0, 4, 5);
  }

  /** The steps of `await opts.run(mocha)` occur in order. */
  lemma LegacyTryRanked(opts: map<Key, Value>, env: RunEnv)
    requires Resolved(opts)
    ensures Ranked(LegacyTry(opts, env).1, 5, 8)
  {
    var events := LegacyTry(opts, env).1;
    if events == [StartRun, RunnerHook, AwaitEnd] {
      assert Ranked(events, 5, 8);
    } else if events == [StartRun, RunnerHook] {
      assert Ranked(events, 5, 8);
    } else {
      assert events == [StartRun];
    }
  }

  /** The steps of the `finally` block occur in order. */
  lemma LegacyFinallyRanked(files: seq<string>, removal: Removal)
    ensures Ranked(LegacyFinallyEvents(files, removal), 8, 10)
  {
    var hook: seq<Event> := if removal.outcome == Ok then [FinallyHook] else [];
    assert Ranked([Cleanup(files)], 8, 9) && Ranked(hook, 9, 10);
    RankedAppend([Cleanup(files)], hook, 8, 9, 10);
  }

  /** The steps always occur in the fixed order, each at most once. */
  lemma LegacyStepsInOrder(opts: map<Key, Value>, bundleFiles: seq<string>, paths: set<string>, env: RunEnv)
    requires Resolved(opts)
    ensures InOrder(LegacyRunSpec(opts, bundleFiles, paths, env).trace)
  {
    if !opts[Instance].instance.InstanceFails? {
      var prepared := LegacyPrepared(opts, bundleFiles);
      LegacyPreparedRanked(opts, bundleFiles);
      if AddFilesResult(opts[AddFiles].addFiles).Success? {
        var tried := LegacyTry(opts, env);
        var files := FilesToRemove(opts, bundleFiles);
        var removal := LegacyCleanup(opts, files, paths, env);
        LegacyTryRanked(opts, env);
        LegacyFinallyRanked(files, removal);
        RankedAppend(prepared, tried.1, 0, 5, 8);
        RankedAppend(prepared + tried.1, LegacyFinallyEvents(files, removal), 0, 8, 10);
      }
    }
  }

  /**
   * Once the instance and the add-files step succeed, the run step is entered
   * and the remove-files step always follows with the files to remove;
   * `done` is called exactly when removal succeeded.
   */
  lemma LegacyCleanupAlways(opts: map<Key, Value>, bundleFiles: seq<string>, paths: set<string>, env: RunEnv)
    requires Resolved(opts)
    requires !opts[Instance].instance.InstanceFails? && AddFilesResult(opts[AddFiles].addFiles).Success?
    ensures var s := LegacyRunSpec(opts, bundleFiles, paths, env);
      StartRun in s.trace && Cleanup(FilesToRemove(opts, bundleFiles)) in s.trace &&
      (FinallyHook in s.trace <==> LegacyCleanup(opts, FilesToRemove(opts, bundleFiles), paths, env).outcome == Ok)
  {
  }

  /** A failure of `instance()` or of the add-files step happens before the `try`: nothing is run or removed. */
  lemma LegacyFailsBeforeTry(opts: map<Key, Value>, bundleFiles: seq<string>, paths: set<string>, env: RunEnv)
    requires Resolved(opts)
    requires opts[Instance].instance.InstanceFails? || AddFilesResult(opts[AddFiles].addFiles).Failure?
    ensures var s := LegacyRunSpec(opts, bundleFiles, paths, env);
      StartRun !in s.trace && FinallyHook !in s.trace &&
      (forall files :: Cleanup(files) !in s.trace) && s.paths == paths && s.outcome.Err?
  {
  }

  /**
   * With the default run, a runner hook that settles the promise decides the
   * outcome whatever the failure count; an idle hook leaves it to 'end'.
   */
  lemma LegacyRunnerSettlesFirst(opts: map<Key, Value>, env: RunEnv)
    requires Resolved(opts)
    requires opts[RunKey].run.DefaultRun? && env.loadError.None?
    ensures opts[Runner].runner.Settles? ==> LegacyTry(opts, env).0 == opts[Runner].runner.outcome
    ensures opts[Runner].runner.Idle? ==>
      (LegacyTry(opts, env).0 == Ok <==> env.failures == 0) &&
      (env.failures > 0 ==> LegacyTry(opts, env).0 == Err(TestsFailed(env.failures)))
    ensures RunnerHook in LegacyTry(opts, env).1
  {
  }

  /**
   * As written, the options `getOptions` builds always take the default run
   * step, whatever `run` the caller passed: the runner hook is called once the
   * test files load. With the intended options a caller's `run` settles the
   * step by itself and the runner hook is not called.
   */
  lemma CallerRunAtRunStep(options: UserOptions, env: RunEnv)
    requires WellTyped(options) && env.loadError.None?
    ensures Resolved(AsWrittenOptions(options)) && Resolved(IntendedOptions(options))
    ensures RunnerHook in LegacyTry(AsWrittenOptions(options), env).1
    ensures RunKey in options && options[RunKey].RunFn? && options[RunKey].run.CustomRun? ==>
      LegacyTry(IntendedOptions(options), env) == (options[RunKey].run.outcome, [StartRun])
  {
    IntendedOptionsResolved(options);
  }

  /** With no options at all, every key takes its default. */
  lemma NoOptionsAllDefaults()
    ensures var opts := IntendedOptions(map[]);
      Resolved(opts) && forall k: Key :: opts[k] == DefaultValue(k)
  {
    IntendedOptionsResolved(map[]);
    var opts := IntendedOptions(map[]);
    forall k: Key
      ensures opts[k] == DefaultValue(k)
    {
      assert k == RunKey || k in DefaultedKeys;
    }
  }

  /** A run whose options all hold their defaults, under the assumptions of `LegacyDefaultsClearFiles`. */
  lemma DefaultRunClearsFiles(opts: map<Key, Value>, bundleFiles: seq<string>, paths: set<string>, env: RunEnv)
    requires Resolved(opts) && forall k: Key :: opts[k] == DefaultValue(k)
    requires env.loadError.None?
    requires forall j :: 0 <= j < |bundleFiles| ==> bundleFiles[j] in paths && bundleFiles[j] !in env.unlinkFails
    requires forall i, j :: 0 <= i < j < |bundleFiles| ==> bundleFiles[i] != bundleFiles[j]
    ensures var s := LegacyRunSpec(opts, bundleFiles, paths, env);
      s.outcome == TestRunOutcome(env.failures) &&
      (forall j :: 0 <= j < |bundleFiles| ==> bundleFiles[j] !in s.paths) &&
      FinallyHook in s.trace
  {
    assert opts[Instance] == DefaultValue(Instance);
    assert opts[AddFiles] == DefaultValue(AddFiles);
    assert opts[RemoveFiles] == DefaultValue(RemoveFiles);
    assert opts[Runner] == DefaultValue(Runner);
    assert opts[RunKey] == DefaultValue(RunKey);
    assert opts[Done] == DefaultValue(Done);
    var removal := UnlinkEach(paths, bundleFiles, env.unlinkFails);
    UnlinkEachSucceedsIff(paths, bundleFiles, env.unlinkFails);
    UnlinkEachPaths(paths, bundleFiles, env.unlinkFails);
    assert LegacyFinallyEvents(bundleFiles, removal) == [Cleanup(bundleFiles), FinallyHook];
  }

  /**
   * With no options at all, a run whose listed files all exist (once each)
   * and can be unlinked settles with the test outcome and leaves none of
   * them behind, whether the tests pass or fail.
   */
  lemma LegacyDefaultsClearFiles(bundleFiles: seq<string>, paths: set<string>, env: RunEnv)
    requires env.loadError.None?
    requires forall j :: 0 <= j < |bundleFiles| ==> bundleFiles[j] in paths && bundleFiles[j] !in env.unlinkFails
    requires forall i, j :: 0 <= i < j < |bundleFiles| ==> bundleFiles[i] != bundleFiles[j]
    ensures Resolved(IntendedOptions(map[]))
    ensures var s := LegacyRunSpec(IntendedOptions(map[]), bundleFiles, paths, env);
      s.outcome == TestRunOutcome(env.failures) &&
      (forall j :: 0 <= j < |bundleFiles| ==> bundleFiles[j] !in s.paths) &&
      FinallyHook in s.trace
  {
    NoOptionsAllDefaults();
    DefaultRunClearsFiles(IntendedOptions(map[]), bundleFiles, paths, env);
  }

  /** The older plugin object: its resolved options and the file list kept between hooks. */
  class LegacyPlugin {
    const name: string
    const opts: map<Key, Value>
    var bundleFiles: seq<string>

    /** `mocha(options = {})`. */
    constructor (options: UserOptions)
      requires WellTyped(options)
      ensures name == "mocha" && opts == IntendedOptions(options) && Resolved(opts)
      ensures bundleFiles == []
    {
      name := "mocha";
      bundleFiles := [];
      var resolved := ResolveOptions(options);
      IntendedOptionsResolved(options);
      opts := resolved;
    }

    /** `renderStart`: forget the files of the previous build. */
    method RenderStart()
      modifies this
      ensures bundleFiles == []
    {
      bundleFiles := [];
    }

    /** `generateBundle`: append every key of the bundle, assets included, joined with the directory. */
    method GenerateBundle(output: OutputOptions, bundle: Bundle)
      modifies this
      ensures bundleFiles == old(bundleFiles) + BundlePaths(LegacyDir(output), bundle)
    {
      var dir := LegacyDir(output);
      var i := 0;
      while i < |bundle|
        invariant 0 <= i <= |bundle|
        invariant bundleFiles == old(bundleFiles) + BundlePaths(dir, bundle[..i])
      {
        assert bundle[..i + 1][..i] == bundle[..i];
        bundleFiles := bundleFiles + [Join(dir, bundle[i].fileName)];
        i := i + 1;
      }
      assert bundle[..i] == bundle;
    }

    /** The default `addFiles`: register every file with the instance. */
    static method AddEach(files: seq<string>, mocha: Mocha)
      modifies mocha
      ensures mocha.files == old(mocha.files) + files
      ensures mocha.requireListeners == old(mocha.requireListeners)
    {
      for i := 0 to |files|
        invariant mocha.files == old(mocha.files) + files[..i]
        invariant mocha.requireListeners == old(mocha.requireListeners)
      {
        mocha.AddFile(files[i]);
      }
      assert files[..|files|] == files;
    }

    /** The default `removeFiles`: unlink every file, one after the other. */
    static method UnlinkAll(files: seq<string>, fs: FileSystem, failing: set<string>) returns (r: Outcome)
      modifies fs
      ensures Removal(r, fs.paths) == UnlinkEach(old(fs.paths), files, failing)
    {
      r := Ok;
      for i := 0 to |files|
        invariant Removal(r, fs.paths) == UnlinkEach(old(fs.paths), files[..i], failing)
      {
        assert files[..i + 1][..i] == files[..i];
        var file := files[i];
        var step := if file !in fs.paths then Err(NotFound(file)) else if file in failing then Err(IoError(file)) else Ok;
        if step == Ok {
          fs.paths := fs.paths - {file};
        }
        if r == Ok {
          r := step;
        }
      }
      assert files[..|files|] == files;
    }

    /** `await opts.run(mocha)`, step by step. */
    method TryPhase(env: RunEnv) returns (pending: Outcome, events: seq<Event>)
      requires Resolved(opts)
      ensures (pending, events) == LegacyTry(opts, env)
    {
      events := [StartRun];
      var run := opts[RunKey].run;
      if run.CustomRun? {
        return run.outcome, events;
      }
      if env.loadError.Some? {
        return Err(env.loadError.value), events;
      }
      events := events + [RunnerHook];
      var runner := opts[Runner].runner;
      if runner.Settles? {
        assert events == [StartRun, RunnerHook];
        pending := runner.outcome;
      } else {
        events := events + [AwaitEnd];
        assert events == [StartRun, RunnerHook, AwaitEnd];
        pending := TestRunOutcome(env.failures);
      }
    }

    /** The `finally` block, step by step. */
    method FinallyPhase(files: seq<string>, fs: FileSystem, env: RunEnv, pending: Outcome, before: seq<Event>)
      returns (r: Outcome, trace: seq<Event>)
      requires Resolved(opts)
      modifies fs
      ensures RunResult(trace, r, fs.paths) ==
        LegacyFinally(opts, files, LegacyCleanup(opts, files, old(fs.paths), env), pending, before)
    {
      trace := before + [Cleanup(files)];
      var removed: Outcome;
      match opts[RemoveFiles].removeFiles {
        case DefaultRemove =>
          removed := UnlinkAll(files, fs, env.unlinkFails);
        case CustomRemove(outcome, after) =>
          fs.paths := after(fs.paths);
          removed := outcome;
      }
      if removed.Err? {
        return removed, trace;
      }
      trace := trace + [FinallyHook];
      r := if opts[Done].done.Err? then opts[Done].done else pending;
    }

    /** `runTest`, the `writeBundle` hook, on a copy of the accumulated file list. */
    method RunTest(fs: FileSystem, env: RunEnv) returns (r: Outcome, trace: seq<Event>, mocha: Mocha?)
      requires Resolved(opts)
      modifies fs, Instances(opts[Instance].instance)
      ensures RunResult(trace, r, fs.paths) == LegacyRunSpec(opts, bundleFiles, old(fs.paths), env)
      ensures mocha == null <==> opts[Instance].instance.InstanceFails?
      ensures opts[Instance].instance.Existing? ==>
        var m := opts[Instance].instance.mocha;
        mocha == m &&
        m.requireListeners == old(m.requireListeners) + (if Truthy(opts[NoClearCache]) then 0 else 1) &&
        m.files == old(m.files) + RegisteredBy(opts[AddFiles].addFiles, bundleFiles)
      ensures opts[Instance].instance.FreshInstance? ==>
        mocha != null && fresh(mocha) &&
        mocha.requireListeners == (if Truthy(opts[NoClearCache]) then 0 else 1) &&
        mocha.files == RegisteredBy(opts[AddFiles].addFiles, bundleFiles)
    {
      trace := [CreateInstance];
      match opts[Instance].instance {
        case InstanceFails(e) =>
          return Err(e), trace, null;
        case Existing(m) =>
          mocha := m;
        case FreshInstance =>
          mocha := new Mocha();
      }
      if !Truthy(opts[NoClearCache]) {
        mocha.OnRequireClearCache();
        trace := trace + [AttachCacheClear];
      }
      var testFiles := bundleFiles;
      trace := trace + [Register(testFiles)];
      assert trace == LegacyPrepared(opts, bundleFiles);
      var result: Option<seq<string>>;
      match opts[AddFiles].addFiles {
        case DefaultAddFiles =>
          AddEach(testFiles, mocha);
          result := None;
        case CustomAddFiles(added, register) =>
          AddEach(register(testFiles), mocha);
          if added.Failure? {
            return Err(added.error), trace, mocha;
          }
          result := added.value;
      }
      var files := if result.Some? then result.value else testFiles;
      assert files == FilesToRemove(opts, bundleFiles);
      var pending, tried := TryPhase(env);
      r, trace := FinallyPhase(files, fs, env, pending, trace + tried);
    }
  }
}
