/**
 * The `presser` entry point after argument parsing: pick the
 * configuration file, resolve and normalise the connection settings,
 * create the client, stop on an empty post list, then run the
 * publishing loop. Reading a file, creating the client and each remote
 * call are supplied as parameters.
 */
module Cli {
  import opened Wrappers
  import opened Strings
  import opened Config
  import opened ConfigSearch
  import opened Publisher

  /** The configuration path chosen, the settings resolved from it, and the trace of the run. */
  datatype Run = Run(configPath: Option<string>, settings: Option<Settings>, trace: Trace)

  /** A run that stopped before the loop: nothing opened, nothing submitted. */
  function Halted(exit: Exit): Trace {
    Trace([], [], [], [], exit)
  }

  /** The configuration path: `--config` when given and non-empty, otherwise the result of the search. */
  function ConfigPath(explicit: Option<string>, walk: seq<WalkEntry>): Option<string> {
    if explicit.Some? && explicit.value != "" then explicit else FirstConfig(walk)
  }

  /**
   * `presser()`. `load` gives the parsed contents of a configuration
   * path (empty for a file that cannot be read), `walk` the directory
   * walk, `answers` what the prompts would read, `reachable` whether
   * `Client` can be created for the settings.
   */
  method Presser(
    opts: RunOptions,
    load: string -> IniData,
    walk: seq<WalkEntry>,
    answers: PromptAnswers,
    reachable: Settings -> bool,
    read: string -> string,
    markdown: string -> string,
    call: nat -> CallOutcome)
    returns (run: Run)
    ensures run.configPath == ConfigPath(opts.configFile, walk)
    ensures run.configPath.None? ==> run.settings == None && run.trace == Halted(NoConfigFile)
    ensures run.configPath.Some? ==> run.settings == Some(ConnectionSettings(load(run.configPath.value), answers))
    ensures run.settings.Some? ==>
      StartsWith(run.settings.value.siteUrl, HttpScheme) && EndsWith(run.settings.value.siteUrl, EndpointSuffix)
    ensures run.settings.Some? && !reachable(run.settings.value) ==> run.trace == Halted(Unreachable)
    ensures run.settings.Some? && reachable(run.settings.value) && opts.posts == [] ==>
      run.trace == Halted(NoPosts)
    ensures run.settings.Some? && reachable(run.settings.value) && opts.posts != [] ==>
      run.trace == PublishTrace(opts, read, markdown, call)
    ensures run.trace.submitted != [] ==> run.settings.Some? && reachable(run.settings.value) && !opts.dryRun
  {
    var path := opts.configFile;
    if path.None? || path.value == "" {
      path := FindConfigFile(walk);
    }
    if path.None? {
      return Run(None, None, Halted(NoConfigFile));
    }
    var settings := ConnectionSettings(load(path.value), answers);
    if !reachable(settings) {
      return Run(path, Some(settings), Halted(Unreachable));
    }
    if |opts.posts| == 0 {
      return Run(path, Some(settings), Halted(NoPosts));
    }
    var t := ProcessPosts(opts, read, markdown, call);
    if opts.dryRun {
      DryRunMakesNoCalls(opts, read, markdown, call);
    }
    run := Run(path, Some(settings), t);
  }
}
