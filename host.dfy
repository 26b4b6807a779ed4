/** The state outside the plugin that it changes: a Mocha instance and the file system. */
module Host {
  import opened Outcomes

  /** The part of a Mocha instance that the plugin touches. */
  class Mocha {
    /** `mocha.files`: the files registered with `addFile`, in order. */
    var files: seq<string>
    /** Listeners on the root suite's 'require' event that drop a file from `require.cache`. */
    var requireListeners: nat

    /** `new Mocha()` without options. */
    constructor ()
      ensures files == [] && requireListeners == 0
    {
      files := [];
      requireListeners := 0;
    }

    /** `mocha.addFile(file)`. */
    method AddFile(file: string)
      modifies this
      ensures files == old(files) + [file]
      ensures requireListeners == old(requireListeners)
    {
      files := files + [file];
    }

    /** `mocha.suite.on('require', (_, file) => delete require.cache[file])`. */
    method OnRequireClearCache()
      modifies this
      ensures requireListeners == old(requireListeners) + 1
      ensures files == old(files)
    {
      requireListeners := requireListeners + 1;
    }
  }

  /** The file system, as the set of paths for which `stat` succeeds. */
  class FileSystem {
    var paths: set<string>

    constructor (paths: set<string>)
      ensures this.paths == paths
    {
      this.paths := paths;
    }
  }

  /** What an instance-constructing hook does: build a new instance, hand back an existing one, or throw. */
  datatype InstanceHook = FreshInstance | Existing(mocha: Mocha) | InstanceFails(error: Error)

  /** The existing instance, if any, that a hook hands back: the only Mocha object a run may change besides fresh ones. */
  function Instances(hook: InstanceHook): set<Mocha>
  {
    if hook.Existing? then {hook.mocha} else {}
  }
}
