/**
 * The newer plugin entry point: a setup callback, or an options record
 * that selects the default run, and a `writeBundle` hook that builds a
 * fresh API object for every write.
 */
module Plugin {
  import opened Outcomes
  import opened Host
  import opened Api
  import opened Events
  import opened Orchestrator

  /**
   * A manual setup callback, modelled by how it settles and by the file
   * system it leaves (it may delete files through the API it receives), given
   * the API's output directory, the bundle and the paths that exist before it.
   */
  type SetupFn = (string, Bundle, set<string>) -> (Outcome, set<string>)

  /** The plugin argument: a setup function or an options record. */
  datatype PluginArg = SetupArg(setup: SetupFn) | OptionsArg(options: Options)

  /** The setup the plugin uses on every write. */
  datatype Setup = Manual(setup: SetupFn) | Orchestrated(options: Options)

  /** The plugin object returned to the bundler. */
  datatype MochaPlugin = MochaPlugin(name: string, setup: Setup)

  /** `mocha(pluginOpts = {})`: a function is the setup; anything else goes to `run` as options. */
  function Create(arg: Option<PluginArg>): (plugin: MochaPlugin)
    ensures plugin.name == "mocha"
    ensures arg.Some? && arg.value.SetupArg? ==> plugin.setup == Manual(arg.value.setup)
    ensures arg.Some? && arg.value.OptionsArg? ==> plugin.setup == Orchestrated(arg.value.options)
    ensures arg.None? ==> plugin.setup == Orchestrated(DefaultOptions)
  {
    var setup :=
      if arg.Some? && arg.value.SetupArg? then Manual(arg.value.setup)
      else Orchestrated(if arg.Some? then arg.value.options else DefaultOptions);
    MochaPlugin("mocha", setup)
  }

  /** The instance objects a write may change. */
  function WriteObjects(plugin: MochaPlugin): set<Mocha>
  {
    if plugin.setup.Orchestrated? then InstanceObjects(plugin.setup.options) else {}
  }

  /**
   * `writeBundle(options, bundle)`: build a new API from this write's output
   * options and return what the setup returns. A manual setup receives the
   * bundle untouched, decides the outcome and the file system itself, and the
   * default run is not used.
   */
  method WriteBundle(plugin: MochaPlugin, output: Option<OutputOptions>, bundle: Bundle, fs: FileSystem, env: RunEnv)
    returns (api: MochaApi, r: Outcome, trace: seq<Event>)
    modifies fs, WriteObjects(plugin)
    ensures fresh(api) && api.dir == OutputDir(output)
    ensures plugin.setup.Manual? ==>
      (r, fs.paths) == plugin.setup.setup(api.dir, bundle, old(fs.paths)) && trace == []
    ensures plugin.setup.Orchestrated? ==>
      RunResult(trace, r, fs.paths) == RunSpec(api.dir, bundle, plugin.setup.options, old(fs.paths), env)
  {
    api := new MochaApi(output);
    match plugin.setup {
      case Manual(setup) =>
        var settled := setup(api.dir, bundle, fs.paths);
        r := settled.0;
        fs.paths := settled.1;
        trace := [];
      case Orchestrated(options) =>
        var mocha;
        r, trace, mocha := Run(api, bundle, options, fs, env);
    }
  }

  /** With no argument, every write runs the default steps and never removes files. */
  lemma DefaultPluginKeepsFiles(output: Option<OutputOptions>, bundle: Bundle, paths: set<string>, env: RunEnv)
    ensures var plugin := Create(None);
      plugin.setup.Orchestrated? &&
      RunSpec(OutputDir(output), bundle, plugin.setup.options, paths, env).paths == paths &&
      AttachCacheClear in RunSpec(OutputDir(output), bundle, plugin.setup.options, paths, env).trace
  {
  }
}
