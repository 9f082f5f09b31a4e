/** The `Logger` class: its construction, the `name` setter and the emit
    closure shared by the six level methods. */
module LoggerClass {
  import opened Wrappers
  import opened Levels
  import opened Names
  import opened Emission

  /** The constructor's options object. `logMetadata` is accepted but never
      stored on the instance. */
  datatype Options = Options(name: Option<string>, logMetadata: Option<bool>, plugins: Option<seq<Plugin>>)

  class Logger {
    /** `SELECTED_LEVEL`, fixed at construction; `None` is `undefined`. */
    const selectedLevel: Option<nat>
    /** `process.pid`. */
    const pid: nat
    /** `JSON.stringify`, the serializer of call metadata. */
    const serialize: Metadata -> string
    /** The value behind the `name` getter (`_name`). */
    var name: string
    /** `this.logMetadata`, which the constructor never assigns (falsy). */
    var logMetadata: bool
    var plugins: seq<Plugin>
    /** The level methods installed on the instance, by property name, each
        bound to its level. */
    var emitters: map<string, Level>
    /** Everything written to the output sink, in order. */
    ghost var output: seq<string>
    /** Every plugin invocation, in order. */
    ghost var pluginRuns: seq<PluginRun>

    function CurrentSettings(): Settings
      reads this
    {
      Settings(selectedLevel, name, logMetadata, plugins, serialize)
    }

    /** `new Logger(opts)` with `LOG_LEVEL` given as `env`. */
    constructor (opts: Options, env: Option<string>, pid: nat, serialize: Metadata -> string)
      ensures selectedLevel == ResolveThreshold(env)
      ensures this.pid == pid && this.serialize == serialize
      ensures name == DisplayName(opts.name, pid)
      ensures !logMetadata
      ensures plugins == if opts.plugins.Some? then opts.plugins.value else []
      ensures emitters.Keys == LogLevels.Keys
      ensures forall k :: k in emitters ==> Name(emitters[k]) == k
      ensures output == [] && pluginRuns == []
    {
      selectedLevel := ResolveThreshold(env);
      this.pid := pid;
      this.serialize := serialize;
      name := DisplayName(opts.name, pid);
      logMetadata := false;
      plugins := if opts.plugins.Some? then opts.plugins.value else [];
      output, pluginRuns := [], [];
      var installed: map<string, Level> := map[];
      var i := 0;
      while i < |AllLevels|
        invariant 0 <= i <= |AllLevels|
        invariant installed.Keys == set j | 0 <= j < i :: Name(AllLevels[j])
        invariant forall k :: k in installed ==> Name(installed[k]) == k
      {
        installed := installed[Name(AllLevels[i]) := AllLevels[i]];
        i := i + 1;
      }
      assert installed.Keys == LogLevels.Keys by {
        forall k | k in LogLevels ensures k in installed {
          TableKeysAreLevelNames(k);
          var l: Level :| Name(l) == k;
          assert l == AllLevels[Rank(l)];
        }
      }
      emitters := installed;
    }

    /** The `name` setter. */
    method SetName(given: Option<string>)
      modifies this`name
      ensures name == DisplayName(given, pid)
    {
      if IsTruthy(given) {
        name := given.value + "-" + DecimalString(pid);
      } else {
        name := DecimalString(pid);
      }
    }

    /** The level method for `level`, called with `text`, `opts` and the
        timestamp `ts` the clock gives. It changes the output and runs the
        plugins, exactly as `EmitEffect` says, and nothing else. */
    method Emit(level: Level, text: string, opts: CallOptions, ts: string)
      modifies this`output, this`pluginRuns
      ensures output == old(output) + EmitEffect(CurrentSettings(), level, text, opts, ts).lines
      ensures pluginRuns == old(pluginRuns) + EmitEffect(CurrentSettings(), level, text, opts, ts).runs
    {
      var levelValue := LogLevels[Name(level)];
      if selectedLevel.Some? && levelValue < selectedLevel.value {
        return;
      }
      var line := Tag(level) + " <" + ts + "> (" + name + ") -> " + text;
      if logMetadata && opts.metadata.Some? {
        line := line + (" " + serialize(opts.metadata.value));
      } else {
        assert line + MetadataSuffix(CurrentSettings(), opts) == line;
      }
      output := output + [line];
      RunPlugins(Record(line, Name(level), levelValue, opts));
    }

    /** The plugin loop of an accepted call: every plugin runs on `rec` in
        list order, and each one that throws adds its diagnostic to the
        output; the loop itself never fails. */
    method RunPlugins(rec: Record)
      modifies this`output, this`pluginRuns
      ensures output == old(output) + Diagnostics(plugins, rec)
      ensures pluginRuns == old(pluginRuns) + RunsOf(|plugins|, rec)
    {
      var i := 0;
      while i < |plugins|
        invariant 0 <= i <= |plugins|
        invariant output == old(output) + Diagnostics(plugins[..i], rec)
        invariant pluginRuns == old(pluginRuns) + RunsOf(i, rec)
      {
        pluginRuns := pluginRuns + [PluginRun(i, rec)];
        var outcome := plugins[i].run(rec);
        if outcome.Threw? {
          output := output + [Diagnostic(outcome.cause)];
        }
        assert plugins[..i + 1][..i] == plugins[..i];
        i := i + 1;
      }
      assert plugins[..i] == plugins;
    }
  }
}
