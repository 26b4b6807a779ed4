# rollup-plugin-mocha, modelled in Dafny

rollup-plugin-mocha is a Rollup plugin that runs Mocha on the files a build
has just written. Its `writeBundle` hook builds an API object from the
write's output options. It then either hands that object and the bundle to
a caller's setup function, or runs the default steps:

1. get a Mocha instance and optionally clear `require.cache` on each load;
2. collect the bundle's chunk files and optionally filter them;
3. register the files and run Mocha;
4. wait for the runner's 'end' event and reject when tests failed;
5. finally, optionally delete the registered files (guarded by the output
   directory), then call a final hook.

The older entry point (`src/index.ts`) does the same job differently:
- options are defaulted key by key;
- a file list is kept across the `renderStart` and `generateBundle` hooks;
- removal is unconditional, unless the caller replaces it.

The model has one module per concern:

- `Outcomes`: the error kinds, `Outcome` (a settled promise) and `Result`.
- `Paths`: POSIX `dirname`, `join` and `startsWith` on plain strings.
- `Host`: the Mocha instance and the file system.
  - Both are classes whose fields the plugin changes: the registered files, the number of `require` listeners, and the set of existing paths.
- `Api` (`src/api.ts`): the API class.
  - Its spec functions: `OutputDir`, `ChunkPaths`, the guard `Inside`, `RemoveSpec` and `TestRunOutcome`.
  - The lemmas about those functions.
- `Events`: the externally visible steps of a run as a trace of events.
  - Each event has a rank in the fixed order in which steps may happen.
- `Orchestrator` (`src/run.ts`): the default run.
  - A method `Run` whose contract ties the trace, outcome and file system to the function `RunSpec`.
  - The lemmas about `RunSpec`.
- `Plugin` (`src/mocha.ts`): the plugin factory and its `writeBundle` hook.
- `Legacy` (`src/index.ts`): the older plugin.
  - Option defaulting, the kept file list, the default unlink-everything removal, and `runTest`.

Caller hooks are modelled by what they do, not by code:
- `instance()` returns a fresh instance, an existing one, or throws.
- `filterFiles` is a total function to a `Result`.
- `runner` and `finally` settle with an `Outcome`.
- Loading the test files may throw.
- The number of failures at 'end' is an input (`RunEnv`), as is the set of paths whose unlink fails.

## Model

| member | source | states |
|---|---|---|
| Paths.JoinExamples | src/api.ts:35 | joining onto the empty directory leaves the name as is; joining onto "tmp" puts "tmp/" in front |
| Paths.DirnameExamples | src/api.ts:12 | the directory of "tmp/test/index.js" is "tmp/test", and of a bare "_test.js" it is "." |
| Paths.DirnameOfJoin | src/api.ts:52 | for a non-empty name and a directory other than "." without a trailing slash, the directory part of the joined path starts with the directory |
| Paths.JoinInjective | src/api.ts:35 | under one directory, distinct non-empty names join to distinct paths |
| Api.OutputDir | src/api.ts:10-12 | the directory is `dir` when set, else the directory part of `file` when that is set; it is empty exactly when neither is set or no options are given |
| Api.MochaApi.constructor | src/api.ts:10-19 | the API's `dir` is fixed at construction to `OutputDir` of the options and cannot change afterwards |
| Api.MochaApi.Instance | src/api.ts:21-23 | returns a new Mocha instance with no files and no listeners |
| Api.MochaApi.NoCache | src/api.ts:25-28 | adds exactly one `require` listener, leaves the files alone and returns the API itself |
| Api.MochaApi.GetFiles | src/api.ts:30-39 | the loop returns `ChunkPaths`: the chunk entries joined with `dir`, in bundle order |
| Api.ChunkPathsAppend | src/api.ts:30-39 | collecting a bundle in two parts gives the first part's files followed by the second's |
| Api.ChunkPathsMembership | src/api.ts:30-39 | a path is collected exactly when some chunk entry of the bundle joins to it |
| Api.AssetsExcluded | src/api.ts:34 | when the bundle's names are distinct and non-empty, no asset's joined path is among the collected files |
| Api.MochaApi.AddFiles | src/api.ts:41-46 | appends exactly the given files to the instance, in order; changes nothing else and returns the API itself |
| Api.FirstOutside | src/api.ts:51-55 | the index of the first file the guard refuses, or the list length; the file at that index is refused |
| Api.FirstOutsideAccepts | src/api.ts:51-54 | every file before the first refused one passes the guard |
| Api.FirstOutsideAll | src/api.ts:51-55 | no file is refused exactly when every file's directory starts with `dir` |
| Api.MochaApi.ValidateFiles | src/api.ts:48-71 | without `force`: succeeds exactly when every file passes, otherwise rejects naming the first refused file, with no warnings. With `force`: always succeeds with one warning per refused file, and logs the directory once exactly when some file is refused |
| Api.EmptyDirAcceptsAll | src/api.ts:52 | with an empty output directory, every file passes the guard |
| Api.CollectedFilesPassGuard | src/api.ts:52 | for non-empty names and a directory other than "." without a trailing slash, every file `getFiles` collects passes the guard |
| Api.GuardIsTextual | src/api.ts:52 | the guard is a string prefix test: "tmp-other/index.js" passes for "tmp", and a sub-directory chunk under "." is refused |
| Api.TrailingSlashRefusesOwnFiles | src/api.ts:52 | with output directory "tmp/", the collected chunk "tmp/a.js" has directory "tmp", which does not start with "tmp/", so a non-forced removal of the plugin's own file rejects and deletes nothing |
| Api.FirstFailing | src/api.ts:84-86 | none exactly when no listed file both exists and fails to unlink; otherwise it names such a file |
| Api.MochaApi.RemoveFiles | src/api.ts:73-89 | the outcome and the new file system are `RemoveSpec` of the old one |
| Api.RemoveRejectsWholeBatch | src/api.ts:73-75 | when validation refuses the list, the call rejects with the first refused file and deletes nothing |
| Api.RemoveDeletesExactly | src/api.ts:76-88 | after a successful removal none of the listed files exists, and every other path is as it was |
| Api.RemoveIdempotent | src/api.ts:78-83 | removing the same list again succeeds and changes nothing, since missing files are skipped |
| Api.RemoveExampleInside | test/index.spec.ts:315-325 | removing "tmp/_test.js" and "tmp/_test.jsx" with `dir` "tmp" succeeds and both are gone |
| Api.RemoveExampleOutside | test/index.spec.ts:327-335 | removing "_test.js" with `dir` "tmp" rejects as outside the directory and deletes nothing |
| Api.TestRunOutcome | src/api.ts:91-101 | the run promise resolves exactly when there are zero failures, else it rejects with the failure count |
| Orchestrator.InstanceStep | src/run.ts:16 | without an `instance` option a fresh Mocha instance is used |
| Orchestrator.TryPhase | src/run.ts:23-26 | the `try` block's steps and pending outcome are `TryBlock` |
| Orchestrator.FinallyPhase | src/run.ts:27-30 | the `finally` block's steps, outcome and file system are `FinallyBlock` applied to the clean-up result |
| Orchestrator.Run | src/run.ts:11-31 | trace, outcome and file system are `RunSpec`; the instance is the caller's or a fresh one; it gains one listener exactly when `cache` is false, and it gains the registered files |
| Orchestrator.FinallyEventsSteps | src/run.ts:27-30 | clean-up appears exactly when `clear` is set, always with the registered files; the final hook appears exactly when given and clean-up succeeded |
| Orchestrator.RunSpecUnfolds | src/run.ts:16-30 | once instance and filter succeed, the run is the `finally` block over the earlier steps, and those are in order |
| Orchestrator.RunStepsInOrder | src/run.ts:16-30 | the steps of every run occur in the fixed order, each at most once |
| Orchestrator.RunFailsBeforeTry | src/run.ts:16-22 | a failing `instance()` or `filterFiles` rejects with its error; Mocha is not run, nothing is removed and the final hook is not called |
| Orchestrator.RunCacheGate | src/run.ts:17-19 | the cache-clearing listener is attached exactly when `cache` is false |
| Orchestrator.RunRegistersFiltered | src/run.ts:20-22 | the registered files are the filter's result when a filter is given, else all chunk files |
| Orchestrator.RunFinallyPhase | src/run.ts:23-30 | once files are registered Mocha is run; clean-up follows exactly when `clear` is set, with those files; the final hook is called exactly when given and clean-up succeeded |
| Orchestrator.HookPrecedesEnd | src/run.ts:24-26 | in a trace with the `try` block's steps, the runner hook comes before the wait for 'end', which occurs exactly when the hook succeeded |
| Orchestrator.RunnerHookBeforeEnd | src/run.ts:24-26 | the runner hook is called, and it is called before 'end' is awaited; 'end' is awaited exactly when the hook succeeded |
| Orchestrator.RunSucceedsIff | src/run.ts:16-30 | the run succeeds exactly when every step succeeds: instance, filter, loading, runner hook, zero failures, clean-up and final hook |
| Orchestrator.RunErrorPrecedence | src/run.ts:27-30 | a clean-up error replaces the test outcome and skips the final hook; otherwise failing tests reject with their count |
| Orchestrator.RunClearsRegisteredFiles | src/run.ts:28 | without `clear` the file system is unchanged; after a successful clean-up none of the registered files exists and all other paths are as before |
| Orchestrator.ExampleChunkPaths | test/index.spec.ts:285-291 | for the test's bundle of two chunks around an asset, an API built without output options collects "index.js" and "chunk.js" in that order (and under "tmp", "tmp/index.js" and "tmp/chunk.js") |
| Orchestrator.EndToEndExample | src/run.ts:11-31 | with output directory "tmp" and passing tests, both chunks are registered; they are kept without `clear` and gone with it |
| Plugin.Create | src/mocha.ts:26-34 | the plugin is named "mocha"; a function argument becomes the setup, otherwise the default run with the given (or empty) options |
| Plugin.WriteBundle | src/mocha.ts:35-37 | each write builds a new API from that write's output options; a manual setup gets the bundle untouched and decides the outcome and the resulting file system; otherwise the result is `RunSpec` |
| Plugin.DefaultPluginKeepsFiles | src/mocha.ts:27-32 | with no argument, a write never removes files and always attaches the cache-clearing listener |
| Legacy.GetOptions | src/index.ts:46-75 | as written: each of the six keys is the caller's value when truthy, else its default; `run` is always the default |
| Legacy.ResolveOptions | src/index.ts:46-75 | as intended: the same, except that a truthy caller `run` is kept |
| Legacy.OptionsDefaulting | src/index.ts:58-60 | each of the six keys takes the caller's value when truthy, else its default, in both versions |
| Legacy.IntendedOptionsResolved | src/index.ts:24-44 | well-typed caller options resolve every key to a value of its declared type |
| Legacy.NoOptionsAllDefaults | src/index.ts:24-44 | with no options, every key takes its default |
| Legacy.CallerRunIgnored | src/index.ts:57-62 | as written, a caller's `run` is replaced by the default run |
| Legacy.CallerRunKept | src/index.ts:62 | as intended, a caller's `run` is used and the default applies only when none is given |
| Legacy.CallerRunAtRunStep | src/index.ts:62-73 | with the options `getOptions` builds, the run step always calls the runner hook, even when the caller passed a `run`; with the intended options a caller's `run` settles the step alone |
| Legacy.LegacyPlugin.constructor | src/index.ts:77-79 | the plugin is named "mocha" and starts with no files; it holds the corrected options `IntendedOptions`, every key resolved to a value of its type (see Left out) |
| Legacy.LegacyPlugin.RenderStart | src/index.ts:107-109 | the kept file list is emptied |
| Legacy.LegacyPlugin.GenerateBundle | src/index.ts:110-114 | appends every bundle key, assets included, joined with `dir` or the directory part of `file` |
| Legacy.LegacyDirJoinsLikeApi | src/index.ts:111 | for a non-empty name, the older directory rule joins to the same path as the API's |
| Legacy.BundlePathsAt | src/index.ts:112 | one path per bundle entry, at the entry's position |
| Legacy.ChunksOnlyAgree | src/index.ts:112 | on a bundle of chunks only, the older plugin collects the same files as the API |
| Legacy.LegacyPlugin.AddEach | src/index.ts:27-31 | the default add-files step appends exactly the files to the instance |
| Legacy.LegacyPlugin.UnlinkAll | src/index.ts:33-42 | the default removal's outcome and new file system are `UnlinkEach` of the old one |
| Legacy.UnlinkEachPaths | src/index.ts:33-42 | after the default removal, exactly the listed paths whose unlink does not fail are gone |
| Legacy.UnlinkEachSucceedsIff | src/index.ts:33-42 | the default removal succeeds exactly when every listed file exists, none fails and none is listed twice |
| Legacy.ReturnedListReplacesCopy | src/index.ts:94-95 | any list the add-files step returns, even an empty one, becomes the files to remove; returning nothing keeps the copy |
| Legacy.LegacyPlugin.TryPhase | src/index.ts:62-73 | the run step's outcome and steps are `LegacyTry` |
| Legacy.LegacyPlugin.FinallyPhase | src/index.ts:99-102 | the `finally` block's steps, outcome and file system are `LegacyFinally` applied to the removal result: the default unlink of every file, or the caller's step with its own outcome and resulting paths |
| Legacy.LegacyPlugin.RunTest | src/index.ts:81-103 | trace, outcome and file system are `LegacyRunSpec` on the kept file list; the instance gains a listener unless `noClearCache`, and gains the files the add-files step registers (all of them by default) |
| Legacy.LegacyStepsInOrder | src/index.ts:81-103 | the steps of every run occur in the fixed order, each at most once |
| Legacy.LegacyCleanupAlways | src/index.ts:97-102 | once instance and add-files succeed, the run step is entered and the removal step always follows; `done` is called exactly when removal succeeded |
| Legacy.LegacyFailsBeforeTry | src/index.ts:82-95 | a failing instance or add-files step rejects; nothing is run or removed |
| Legacy.LegacyRunnerSettlesFirst | src/index.ts:62-73 | with the default run, a runner hook that settles decides the outcome whatever the failure count; an idle hook leaves it to 'end' |
| Legacy.LegacyDefaultsClearFiles | src/index.ts:81-103 | with no options, a run over existing, distinct, unlinkable files settles with the test outcome and leaves none of them behind |

## Left out

- Node's `path.join` and `path.dirname` are modelled for POSIX paths.
  - Paths are taken to hold no `.` or `..` segments other than a lone "." and no repeated slashes.
  - File paths and names are taken to have no trailing slash. A directory may end in one; `Paths.Join` handles that case.
  - Node's general normalisation of such segments is not modelled.
- Error messages are modelled by their kind and the values they name. Their text is not modelled.
- Api.MochaApi.RemoveFiles: `Promise.all` runs the stat/unlink pairs concurrently.
  - The model deletes in list order and reports the first failing file in list order.
  - In the source, the first rejection to settle wins.
- Api.MochaApi.RemoveFiles: any `stat` error is read as "missing", as in the source. Other file-system races between `stat` and `unlink` are not modelled.
- Api.MochaApi.ValidateFiles: the `console.warn` output is counted (warnings and directory logs), not formatted.
- Orchestrator.Run: timing is not modelled.
  - When an asynchronous runner hook resolves relative to 'end' is not modelled; 'end' is taken to fire after the hook.
  - A run whose 'end' never fires (a promise that never settles) is not modelled.
- Orchestrator.Run: the caller's `instance`, `filterFiles`, `runner` and `finally` hooks are modelled by their result alone. They are taken to change neither the instance's files and listeners nor the file system.
- Legacy.LegacyPlugin.constructor: the plugin holds the corrected options (`Legacy.ResolveOptions`), not what `getOptions` builds at src/index.ts:79.
  - As written, a caller's `run` is ignored and the default run step is always taken.
  - `Legacy.CallerRunAtRunStep` states that difference at the run step. The defect is recorded under Findings.
  - The `runTest` lemmas take the options as a parameter, so they hold for both versions.
- `require.cache` and Mocha's internals (suites, runner, reporters) are not modelled. The cache-clearing listener is counted on the instance, not executed.
- Plugin.WriteBundle: a manual setup is modelled as a function from the directory, the bundle and the existing paths to its outcome and the paths that exist afterwards. Any Mocha instances it creates are not modelled.
- Legacy.LegacyPlugin.RunTest: caller hooks are modelled by their effects, as follows.
  - A custom `addFiles` is modelled by the files it registers and by what it returns or throws. Other changes it makes to the instance are not modelled.
  - A custom `removeFiles` is modelled by its outcome and by the paths that exist after it.
  - Custom `instance`, `run`, `runner` and `done` hooks are modelled by their outcome alone. They are taken to change neither the instance's files and listeners nor the file system.
  - A custom `runner` hook is either idle or settles the promise before 'end'.
  - It cannot settle after 'end' has already settled it.
- Legacy.LegacyPlugin.UnlinkAll: the default removal's unlinks run concurrently under `Promise.all`; the model unlinks in list order and reports the first error in list order.
- Object key order is taken to be the bundle's sequence order. JavaScript's integer-like keys, which are enumerated first, are not modelled.
- `src/types.ts` (type declarations only) and the build configuration files are not part of this model.

## Findings

| source | as written | input that shows it | evidently intended | confidence | as-written member | corrected member |
|---|---|---|---|---|---|---|
| src/index.ts:57-62 | `opts` starts as `{}` and only six keys are copied into it, so `opts.run ||= …` always installs the default run | `mocha({ run: customRun })`: `customRun` is never called | a caller's `run` is used and the default applies only when none is given, as the option interface at src/index.ts:13 declares | high, not executed | Legacy.GetOptions (shown by Legacy.CallerRunIgnored and Legacy.CallerRunAtRunStep) | Legacy.ResolveOptions (proved by Legacy.CallerRunKept; used by Legacy.LegacyPlugin.constructor) |
