/**
 * The API object handed to setup callbacks and used by the orchestrator:
 * the output directory, the chunk files of a bundle, file registration,
 * the guarded deletion of files and the failure-count rule.
 */
module Api {
  import opened Outcomes
  import opened Paths
  import opened Host

  datatype OutputKind = Chunk | Asset

  /** One entry of the emitted bundle: its file name (the object key) and its type. */
  datatype Output = Output(fileName: string, kind: OutputKind)

  /** The emitted bundle, in the object's iteration order. */
  type Bundle = seq<Output>

  /** The output options the bundler passes; "" stands for a value that is not set. */
  datatype OutputOptions = OutputOptions(dir: string, file: string)

  /** `opts.dir || (opts.file && dirname(opts.file)) || ''`, with absent options read as `{}`. */
  function OutputDir(options: Option<OutputOptions>): (dir: string)
    ensures options.Some? && options.value.dir != "" ==> dir == options.value.dir
    ensures options.Some? && options.value.dir == "" && options.value.file != "" ==> dir == Dirname(options.value.file)
    ensures dir == "" <==> options.None? || (options.value.dir == "" && options.value.file == "")
  {
    var opts := if options.Some? then options.value else OutputOptions("", "");
    if opts.dir != "" then opts.dir
    else if opts.file != "" then Dirname(opts.file)
    else ""
  }

  /** The paths of the bundle's chunk entries, each joined with `dir`, in bundle order. */
  function ChunkPaths(dir: string, bundle: Bundle): (files: seq<string>)
    ensures |files| <= |bundle|
  {
    if bundle == [] then []
    else
      var last := bundle[|bundle| - 1];
      ChunkPaths(dir, bundle[..|bundle| - 1]) + (if last.kind == Chunk then [Join(dir, last.fileName)] else [])
  }

  /** Collecting two parts of a bundle one after the other gives the files of each part in turn. */
  lemma {:induction false} ChunkPathsAppend(dir: string, a: Bundle, b: Bundle)
    ensures ChunkPaths(dir, a + b) == ChunkPaths(dir, a) + ChunkPaths(dir, b)
    decreases |b|
  {
    if b != [] {
      var n := |b| - 1;
      assert (a + b)[..|a + b| - 1] == a + b[..n];
      assert (a + b)[|a + b| - 1] == b[n];
      ChunkPathsAppend(dir, a, b[..n]);
    } else {
      assert a + b == a;
    }
  }

  /** A path is collected exactly when some chunk entry joins to it. */
  lemma {:induction false} ChunkPathsMembership(dir: string, bundle: Bundle, p: string)
    ensures p in ChunkPaths(dir, bundle) <==>
      exists i :: 0 <= i < |bundle| && bundle[i].kind == Chunk && p == Join(dir, bundle[i].fileName)
    decreases |bundle|
  {
    if bundle != [] {
      var n := |bundle| - 1;
      var init, last := bundle[..n], bundle[n];
      var tail := if last.kind == Chunk then [Join(dir, last.fileName)] else [];
      assert ChunkPaths(dir, bundle) == ChunkPaths(dir, init) + tail;
      ChunkPathsMembership(dir, init, p);
      if p in ChunkPaths(dir, init) {
        var i :| 0 <= i < n && init[i].kind == Chunk && p == Join(dir, init[i].fileName);
        assert bundle[i] == init[i];
      } else if p in tail {
        assert bundle[n].kind == Chunk && p == Join(dir, bundle[n].fileName);
      } else {
        forall i | 0 <= i < |bundle| && bundle[i].kind == Chunk
          ensures p != Join(dir, bundle[i].fileName)
        {
          if i < n {
            assert bundle[i] == init[i];
          }
        }
      }
    }
  }

  /** Keys of the bundle object are distinct. */
  predicate DistinctNames(bundle: Bundle)
  {
    forall i, j :: 0 <= i < j < |bundle| ==> bundle[i].fileName != bundle[j].fileName
  }

  /** Asset entries never appear among the collected files. */
  lemma AssetsExcluded(dir: string, bundle: Bundle, k: nat)
    requires DistinctNames(bundle)
    requires forall i :: 0 <= i < |bundle| ==> bundle[i].fileName != ""
    requires k < |bundle| && bundle[k].kind == Asset
    ensures Join(dir, bundle[k].fileName) !in ChunkPaths(dir, bundle)
  {
    var p := Join(dir, bundle[k].fileName);
    ChunkPathsMembership(dir, bundle, p);
    if p in ChunkPaths(dir, bundle) {
      var i :| 0 <= i < |bundle| && bundle[i].kind == Chunk && p == Join(dir, bundle[i].fileName);
      JoinInjective(dir, bundle[i].fileName, bundle[k].fileName);
    }
  }

  /** The deletion guard: the text of `dirname(file)` starts with `dir`. */
  predicate Inside(dir: string, file: string)
  {
    StartsWith(Dirname(file), dir)
  }

  /** Index of the first file outside `dir`, or `|files|` when every file is inside. */
  function FirstOutside(dir: string, files: seq<string>): (i: nat)
    ensures i <= |files|
    ensures i < |files| ==> !Inside(dir, files[i])
  {
    if files == [] then 0
    else if !Inside(dir, files[0]) then 0
    else 1 + FirstOutside(dir, files[1..])
  }

  /** Every file before the first refused one is accepted. */
  lemma {:induction false} FirstOutsideAccepts(dir: string, files: seq<string>)
    ensures forall j :: 0 <= j < FirstOutside(dir, files) ==> Inside(dir, files[j])
    decreases |files|
  {
    if files != [] && Inside(dir, files[0]) {
      FirstOutsideAccepts(dir, files[1..]);
      forall j | 0 <= j < FirstOutside(dir, files)
        ensures Inside(dir, files[j])
      {
        if j > 0 {
          assert files[j] == files[1..][j - 1];
        }
      }
    }
  }

  /** The guard accepts the whole list exactly when no file is refused. */
  lemma FirstOutsideAll(dir: string, files: seq<string>)
    ensures FirstOutside(dir, files) == |files| <==> forall j :: 0 <= j < |files| ==> Inside(dir, files[j])
  {
    FirstOutsideAccepts(dir, files);
  }

  /** The number of files outside `dir`: one warning each when deletion is forced. */
  function CountOutside(dir: string, files: seq<string>): (n: nat)
    ensures n <= |files|
  {
    if files == [] then 0
    else
      var last := files[|files| - 1];
      CountOutside(dir, files[..|files| - 1]) + (if Inside(dir, last) then 0 else 1)
  }

  /** With an empty output directory every file passes the guard. */
  lemma {:induction false} EmptyDirAcceptsAll(files: seq<string>)
    ensures FirstOutside("", files) == |files|
    ensures CountOutside("", files) == 0
    decreases |files|
  {
    if files != [] {
      EmptyDirAcceptsAll(files[..|files| - 1]);
    }
  }

  /** Up to the first refused file, a file is accepted exactly when it comes before that one. */
  lemma FirstOutsideStep(dir: string, files: seq<string>, i: nat)
    requires i < |files| && i <= FirstOutside(dir, files)
    ensures Inside(dir, files[i]) <==> i < FirstOutside(dir, files)
  {
    FirstOutsideAccepts(dir, files);
  }

  /** Counting one more file adds one exactly when that file is refused. */
  lemma CountOutsideNext(dir: string, files: seq<string>, i: nat)
    requires i < |files|
    ensures CountOutside(dir, files[..i + 1]) == CountOutside(dir, files[..i]) + (if Inside(dir, files[i]) then 0 else 1)
  {
    assert files[..i + 1][..i] == files[..i];
  }

  /**
   * The files the API collects from a bundle pass its own guard, provided the
   * bundle's names are non-empty and the directory neither is "." nor ends in '/'.
   */
  lemma CollectedFilesPassGuard(dir: string, bundle: Bundle)
    requires forall i :: 0 <= i < |bundle| ==> bundle[i].fileName != ""
    requires dir != "." && (dir == "" || dir[|dir| - 1] != '/')
    ensures FirstOutside(dir, ChunkPaths(dir, bundle)) == |ChunkPaths(dir, bundle)|
  {
    var files := ChunkPaths(dir, bundle);
    forall j | 0 <= j < |files|
      ensures Inside(dir, files[j])
    {
      ChunkPathsMembership(dir, bundle, files[j]);
      var i :| 0 <= i < |bundle| && bundle[i].kind == Chunk && files[j] == Join(dir, bundle[i].fileName);
      DirnameOfJoin(dir, bundle[i].fileName);
    }
  }

  /**
   * The guard is a textual prefix test, not path containment: a file in a
   * sibling directory whose name extends `dir` passes, and with `dir` equal to
   * "." a chunk in a sub-directory is refused.
   */
  lemma GuardIsTextual()
    ensures Inside("tmp", "tmp-other/index.js")
    ensures !Inside(".", Join(".", "chunks/index.js"))
  {
    assert Dirname("tmp-other/index.js") == "tmp-other" by {
      LastSlashIsLast("tmp-other/index.js", 9);
    }
    assert Dirname("chunks/index.js") == "chunks" by {
      LastSlashIsLast("chunks/index.js", 6);
    }
    assert "chunks"[0] != "."[0];
  }

  /** The first listed file that exists and whose unlink fails with an I/O error. */
  function FirstFailing(paths: set<string>, files: seq<string>, failing: set<string>): (f: Option<string>)
    ensures f.None? <==> forall j :: 0 <= j < |files| ==> files[j] !in paths || files[j] !in failing
    ensures f.Some? ==> f.value in files && f.value in paths && f.value in failing
  {
    if files == [] then None
    else
      var prev := FirstFailing(paths, files[..|files| - 1], failing);
      var last := files[|files| - 1];
      assert forall j :: 0 <= j < |files| - 1 ==> files[j] == files[..|files| - 1][j];
      if prev.Some? then prev
      else if last in paths && last in failing then Some(last)
      else None
  }

  /** The outcome of `removeFiles` and the file system after it. */
  datatype Removal = Removal(outcome: Outcome, paths: set<string>)

  /**
   * `removeFiles(files, force)` on a file system holding `paths`, where the
   * unlink of each path in `failing` fails with an I/O error: validate the
   * whole list, then unlink each listed path that exists.
   */
  function RemoveSpec(dir: string, paths: set<string>, files: seq<string>, force: bool, failing: set<string>): Removal
  {
    var i := FirstOutside(dir, files);
    if !force && i < |files| then Removal(Err(OutsideOutputDir(files[i], dir)), paths)
    else
      var stuck := FirstFailing(paths, files, failing);
      Removal(if stuck.Some? then Err(IoError(stuck.value)) else Ok,
              paths - set f | f in files && f !in failing)
  }

  /**
   * A batch with a file outside the directory is refused as a whole: the call
   * rejects naming the first refused file, and nothing is deleted.
   */
  lemma RemoveRejectsWholeBatch(dir: string, paths: set<string>, files: seq<string>, failing: set<string>, k: nat)
    requires k < |files| && !Inside(dir, files[k])
    ensures FirstOutside(dir, files) <= k
    ensures var r := RemoveSpec(dir, paths, files, false, failing);
      r.paths == paths &&
      r.outcome == Err(OutsideOutputDir(files[FirstOutside(dir, files)], dir))
  {
    FirstOutsideAccepts(dir, files);
  }

  /** After a successful removal none of the listed paths exists and every other path is untouched. */
  lemma RemoveDeletesExactly(dir: string, paths: set<string>, files: seq<string>, force: bool, failing: set<string>)
    requires RemoveSpec(dir, paths, files, force, failing).outcome == Ok
    ensures var after := RemoveSpec(dir, paths, files, force, failing).paths;
      (forall j :: 0 <= j < |files| ==> files[j] !in after) &&
      (forall p :: p !in files ==> (p in after <==> p in paths))
  {
  }

  /** A missing path is skipped, so removing the same list again succeeds and changes nothing. */
  lemma RemoveIdempotent(dir: string, paths: set<string>, files: seq<string>, force: bool, failing: set<string>)
    requires RemoveSpec(dir, paths, files, force, failing).outcome == Ok
    ensures var after := RemoveSpec(dir, paths, files, force, failing).paths;
      RemoveSpec(dir, after, files, force, failing) == Removal(Ok, after)
  {
    var after := RemoveSpec(dir, paths, files, force, failing).paths;
    assert FirstFailing(after, files, failing).None?;
    assert after - (set f | f in files && f !in failing) == after;
  }

  /** Two files directly under "tmp" pass the guard for "tmp" and are both deleted. */
  lemma RemoveExampleInside(paths: set<string>)
    requires "tmp/_test.js" in paths && "tmp/_test.jsx" in paths
    ensures var r := RemoveSpec("tmp", paths, ["tmp/_test.js", "tmp/_test.jsx"], false, {});
      r.outcome == Ok && "tmp/_test.js" !in r.paths && "tmp/_test.jsx" !in r.paths
  {
    var files := ["tmp/_test.js", "tmp/_test.jsx"];
    DirnameOfJoin("tmp", "_test.js");
    DirnameOfJoin("tmp", "_test.jsx");
    assert Join("tmp", "_test.js") == files[0] && Join("tmp", "_test.jsx") == files[1];
    assert Inside("tmp", files[0]) && Inside("tmp", files[1]);
    FirstOutsideAll("tmp", files);
    assert FirstOutside("tmp", files) == |files|;
    assert FirstFailing(paths, files, {}) == None;
    assert RemoveSpec("tmp", paths, files, false, {}).outcome == Ok;
    RemoveDeletesExactly("tmp", paths, files, false, {});
  }

  /** A bare file name has directory ".", so the guard for "tmp" refuses it and every path stays. */
  lemma RemoveExampleOutside(paths: set<string>)
    ensures RemoveSpec("tmp", paths, ["_test.js"], false, {}) == Removal(Err(OutsideOutputDir("_test.js", "tmp")), paths)
  {
    assert Dirname("_test.js") == ".";
    assert !Inside("tmp", ["_test.js"][0]);
  }

  /**
   * With an output directory ending in '/', `join` drops the extra slash but
   * `dirname` of the joined path does not end in one, so the guard refuses
   * the plugin's own chunk file and a clearing removal rejects.
   */
  lemma TrailingSlashRefusesOwnFiles(paths: set<string>)
    ensures ChunkPaths("tmp/", [Output("a.js", Chunk)]) == ["tmp/a.js"]
    ensures RemoveSpec("tmp/", paths, ChunkPaths("tmp/", [Output("a.js", Chunk)]), false, {}) ==
      Removal(Err(OutsideOutputDir("tmp/a.js", "tmp/")), paths)
  {
    var bundle := [Output("a.js", Chunk)];
    assert bundle[..0] == [];
    assert Join("tmp/", "a.js") == "tmp/a.js";
    assert ChunkPaths("tmp/", bundle) == ["tmp/a.js"];
    assert Dirname("tmp/a.js") == "tmp" by {
      LastSlashIsLast("tmp/a.js", 3);
    }
    assert !Inside("tmp/", ["tmp/a.js"][0]);
  }

  /** `runner.on('end')`: success exactly when the failure count is 0, else "Tests failed: N". */
  function TestRunOutcome(failures: nat): (r: Outcome)
    ensures r == Ok <==> failures == 0
    ensures r.Err? ==> r.error == TestsFailed(failures)
  {
    if failures == 0 then Ok else Err(TestsFailed(failures))
  }

  /** The API object; its output directory is fixed when it is built. */
  class MochaApi {
    const dir: string

    constructor (options: Option<OutputOptions>)
      ensures dir == OutputDir(options)
    {
      dir := OutputDir(options);
    }

    /** A Mocha instance without options. */
    method Instance() returns (mocha: Mocha)
      ensures fresh(mocha) && mocha.files == [] && mocha.requireListeners == 0
    {
      mocha := new Mocha();
    }

    /** Attach the listener that drops each loaded file from `require.cache`; returns the API itself. */
    method NoCache(mocha: Mocha) returns (self: MochaApi)
      modifies mocha
      ensures self == this
      ensures mocha.requireListeners == old(mocha.requireListeners) + 1 && mocha.files == old(mocha.files)
    {
      mocha.OnRequireClearCache();
      self := this;
    }

    /** The chunk entries of the bundle, in order, each joined with the output directory. */
    method GetFiles(bundle: Bundle) returns (files: seq<string>)
      ensures files == ChunkPaths(dir, bundle)
    {
      files := [];
      var i := 0;
      while i < |bundle|
        invariant 0 <= i <= |bundle|
        invariant files == ChunkPaths(dir, bundle[..i])
      {
        assert bundle[..i + 1][..i] == bundle[..i];
        if bundle[i].kind == Chunk {
          files := files + [Join(dir, bundle[i].fileName)];
        }
        i := i + 1;
      }
      assert bundle[..i] == bundle;
    }

    /** Register every file with the instance, in list order; returns the API itself. */
    method AddFiles(files: seq<string>, mocha: Mocha) returns (self: MochaApi)
      modifies mocha
      ensures self == this
      ensures mocha.files == old(mocha.files) + files
      ensures mocha.requireListeners == old(mocha.requireListeners)
    {
      var i := 0;
      while i < |files|
        invariant 0 <= i <= |files|
        invariant mocha.files == old(mocha.files) + files[..i]
        invariant mocha.requireListeners == old(mocha.requireListeners)
      {
        mocha.AddFile(files[i]);
        i := i + 1;
      }
      assert files[..i] == files;
      self := this;
    }

    /**
     * Check every file against the guard. Without `force` the first file
     * outside the directory is refused; with `force` each such file only
     * produces a warning, and the directory is logged once before the first.
     */
    method ValidateFiles(files: seq<string>, force: bool) returns (r: Outcome, warnings: nat, dirLogs: nat)
      ensures !force ==> warnings == 0 && dirLogs == 0
      ensures !force ==> (r == Ok <==> forall j :: 0 <= j < |files| ==> Inside(dir, files[j]))
      ensures !force && r.Err? ==> var i := FirstOutside(dir, files);
        i < |files| && r.error == OutsideOutputDir(files[i], dir)
      ensures force ==> r == Ok && warnings == CountOutside(dir, files)
      ensures force ==> dirLogs <= 1 && (dirLogs == 1 <==> warnings > 0)
    {
      var didLogDir := false;
      warnings, dirLogs := 0, 0;
      var i := 0;
      while i < |files|
        invariant 0 <= i <= |files|
        invariant !force ==> i <= FirstOutside(dir, files)
        invariant !force ==> warnings == 0 && dirLogs == 0
        invariant force ==> warnings == CountOutside(dir, files[..i])
        invariant didLogDir <==> warnings > 0
        invariant dirLogs == if didLogDir then 1 else 0
      {
        var inside := Inside(dir, files[i]);
        ghost var before := warnings;
        if !force {
          FirstOutsideStep(dir, files, i);
        }
        if !inside {
          if !force {
            FirstOutsideAll(dir, files);
            return Err(OutsideOutputDir(files[i], dir)), 0, 0;
          } else if !didLogDir {
            didLogDir := true;
            dirLogs := dirLogs + 1;
          }
          warnings := warnings + 1;
        }
        if force {
          CountOutsideNext(dir, files, i);
          assert warnings == before + (if inside then 0 else 1);
        }
        i := i + 1;
      }
      assert files[..i] == files;
      FirstOutsideAll(dir, files);
      r := Ok;
    }

    /**
     * Validate the whole list, then delete each listed path that exists;
     * a path whose unlink fails (it is in `failing`) makes the call reject.
     */
    method RemoveFiles(files: seq<string>, force: bool, fs: FileSystem, failing: set<string>) returns (r: Outcome)
      modifies fs
      ensures Removal(r, fs.paths) == RemoveSpec(dir, old(fs.paths), files, force, failing)
    {
      var valid, _, _ := ValidateFiles(files, force);
      if valid.Err? {
        return valid;
      }
      r := Ok;
      var i := 0;
      while i < |files|
        invariant 0 <= i <= |files|
        invariant fs.paths == old(fs.paths) - set f | f in files[..i] && f !in failing
        invariant r == if FirstFailing(old(fs.paths), files[..i], failing).Some?
          then Err(IoError(FirstFailing(old(fs.paths), files[..i], failing).value)) else Ok
      {
        assert files[..i + 1][..i] == files[..i];
        var file := files[i];
        if file in fs.paths {
          if file in failing {
            if r == Ok {
              r := Err(IoError(file));
            }
          } else {
            fs.paths := fs.paths - {file};
          }
        }
        i := i + 1;
      }
      assert files[..i] == files;
    }
  }
}
