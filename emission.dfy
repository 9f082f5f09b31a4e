/** What one emit call does, as values: the formatted line, the record each
    plugin receives, the diagnostics of failing plugins, and the whole
    effect of a call on the output and on the plugins. */
module Emission {
  import opened Wrappers
  import opened Levels

  /** The structured value a caller passes as `opts.metadata`. */
  type Metadata

  /** The per-call options object; `None` stands for a falsy `metadata`. */
  datatype CallOptions = CallOptions(metadata: Option<Metadata>)

  /** `{ text, level, levelValue, opts }`, handed to every plugin. */
  datatype Record = Record(text: string, level: string, levelValue: nat, opts: CallOptions)

  /** What a plugin's `run` does with a record: returns after observing it,
      or throws an error rendered as `cause`. */
  datatype Outcome = Observed | Threw(cause: string)

  datatype Plugin = Plugin(run: Record -> Outcome)

  /** One invocation of a plugin: its position in the list and the record. */
  datatype PluginRun = PluginRun(index: nat, record: Record)

  /** The instance state an emit call reads; `serialize` stands for
      `JSON.stringify`. */
  datatype Settings = Settings(
    threshold: Option<nat>,
    name: string,
    logMetadata: bool,
    plugins: seq<Plugin>,
    serialize: Metadata -> string)

  /** Output of one call: lines written to the sink and plugins run. */
  datatype Effect = Effect(lines: seq<string>, runs: seq<PluginRun>)

  /** `[LEVEL]`, the tag a line starts with. */
  function Tag(l: Level): string
  {
    "[" + Uppercase(Name(l)) + "]"
  }

  lemma TagValues()
    ensures Tag(Debug) == "[DEBUG]" && Tag(Info) == "[INFO]" && Tag(Warn) == "[WARN]"
    ensures Tag(Error) == "[ERROR]" && Tag(Fatal) == "[FATAL]" && Tag(Always) == "[ALWAYS]"
  {
    assert Uppercase("debug") == "DEBUG";
    assert Uppercase("info") == "INFO";
    assert Uppercase("warn") == "WARN";
    assert Uppercase("error") == "ERROR";
    assert Uppercase("fatal") == "FATAL";
    assert Uppercase("always") == "ALWAYS";
  }

  /** The suffix ` <serialized metadata>`, present only when both the
      instance flag and the call's `metadata` are truthy. */
  function MetadataSuffix(s: Settings, opts: CallOptions): string
  {
    if s.logMetadata && opts.metadata.Some? then " " + s.serialize(opts.metadata.value) else ""
  }

  /** The line written for an accepted call with timestamp `ts`. */
  function FormatLine(s: Settings, l: Level, text: string, opts: CallOptions, ts: string): string
  {
    Tag(l) + " <" + ts + "> (" + s.name + ") -> " + text + MetadataSuffix(s, opts)
  }

  /** The level read back from the tag at the start of a line. */
  function LevelOfLine(line: string): Option<Level>
  {
    if Tag(Debug) <= line then Some(Debug)
    else if Tag(Info) <= line then Some(Info)
    else if Tag(Warn) <= line then Some(Warn)
    else if Tag(Error) <= line then Some(Error)
    else if Tag(Fatal) <= line then Some(Fatal)
    else if Tag(Always) <= line then Some(Always)
    else None
  }

  /** Two tags that are both prefixes of one line are the same tag: the
      six tags already differ in their first letter. */
  lemma {:induction false} TagsArePrefixFree(l: Level, m: Level, line: string)
    requires Tag(l) <= line && Tag(m) <= line
    ensures l == m
  {
    TagValues();
    assert Tag(l)[1] == line[1] == Tag(m)[1];
  }

  /** The level of a formatted line can be read back from it. */
  lemma {:induction false} FormatLineLevelRoundTrip(s: Settings, l: Level, text: string, opts: CallOptions, ts: string)
    ensures LevelOfLine(FormatLine(s, l, text, opts, ts)) == Some(l)
  {
    var line := FormatLine(s, l, text, opts, ts);
    assert Tag(l) <= line;
    forall m: Level | Tag(m) <= line
      ensures m == l
    {
      TagsArePrefixFree(l, m, line);
    }
  }

  /** The formatted line is the level tag, the timestamp in angle brackets,
      the instance name in parentheses and the text; a space and the
      serialized metadata follow exactly when the flag is set and the call
      has a metadata value. */
  lemma FormatLineParts(s: Settings, l: Level, text: string, opts: CallOptions, ts: string)
    ensures var line := FormatLine(s, l, text, opts, ts);
            var head := Tag(l) + " <" + ts + "> (" + s.name + ") -> ";
            line[..|head|] == head &&
            line[|head|..|head| + |text|] == text &&
            (!s.logMetadata || opts.metadata.None? ==> line == head + text) &&
            (s.logMetadata && opts.metadata.Some? ==> line == head + text + " " + s.serialize(opts.metadata.value))
  {
  }

  /** The diagnostic written for a plugin that threw. */
  function Diagnostic(cause: string): string
  {
    "plugin error: " + cause
  }

  /** Diagnostics for the failing plugins of a list, in list order. */
  function Diagnostics(ps: seq<Plugin>, rec: Record): seq<string>
  {
    if ps == [] then []
    else
      var last := ps[|ps| - 1].run(rec);
      Diagnostics(ps[..|ps| - 1], rec) + (if last.Threw? then [Diagnostic(last.cause)] else [])
  }

  /** Positions of the plugins that throw on a record. */
  function FailingPlugins(ps: seq<Plugin>, rec: Record): set<nat>
  {
    set i: nat | i < |ps| && ps[i].run(rec).Threw?
  }

  /** Diagnostics of a concatenated list are those of each part, in order. */
  lemma {:induction false} DiagnosticsAppend(ps: seq<Plugin>, qs: seq<Plugin>, rec: Record)
    ensures Diagnostics(ps + qs, rec) == Diagnostics(ps, rec) + Diagnostics(qs, rec)
    decreases |qs|
  {
    if qs == [] {
      assert ps + qs == ps;
    } else {
      var n := |qs| - 1;
      DiagnosticsAppend(ps, qs[..n], rec);
      assert (ps + qs)[..|ps + qs| - 1] == ps + qs[..n];
    }
  }

  /** The diagnostics of a plugin list split around position `i`. */
  lemma {:induction false} DiagnosticsSplitAt(ps: seq<Plugin>, i: nat, rec: Record)
    requires i < |ps|
    ensures Diagnostics(ps, rec) ==
              Diagnostics(ps[..i], rec) +
              (if ps[i].run(rec).Threw? then [Diagnostic(ps[i].run(rec).cause)] else []) +
              Diagnostics(ps[i + 1..], rec)
  {
    assert ps == ps[..i] + [ps[i]] + ps[i + 1..];
    DiagnosticsAppend(ps[..i] + [ps[i]], ps[i + 1..], rec);
    DiagnosticsAppend(ps[..i], [ps[i]], rec);
    assert [ps[i]][..0] == [];
  }

  /** As many diagnostics as failing plugins, each carrying the cause of
      one of them. */
  lemma {:induction false} DiagnosticsCount(ps: seq<Plugin>, rec: Record)
    ensures |Diagnostics(ps, rec)| == |FailingPlugins(ps, rec)|
    ensures forall k :: 0 <= k < |Diagnostics(ps, rec)| ==>
              exists i :: 0 <= i < |ps| && ps[i].run(rec).Threw? && Diagnostics(ps, rec)[k] == Diagnostic(ps[i].run(rec).cause)
  {
    if ps != [] {
      var n := |ps| - 1;
      var init := ps[..n];
      DiagnosticsCount(init, rec);
      if ps[n].run(rec).Threw? {
        assert FailingPlugins(ps, rec) == FailingPlugins(init, rec) + {n};
      } else {
        assert FailingPlugins(ps, rec) == FailingPlugins(init, rec);
      }
      forall k | 0 <= k < |Diagnostics(ps, rec)|
        ensures exists i :: 0 <= i < |ps| && ps[i].run(rec).Threw? && Diagnostics(ps, rec)[k] == Diagnostic(ps[i].run(rec).cause)
      {
        if k < |Diagnostics(init, rec)| {
          var i :| 0 <= i < |init| && init[i].run(rec).Threw? && Diagnostics(init, rec)[k] == Diagnostic(init[i].run(rec).cause);
          assert ps[i] == init[i];
        } else {
          assert Diagnostics(ps, rec)[k] == Diagnostic(ps[n].run(rec).cause);
        }
      }
    }
  }

  /** One diagnostic per failing plugin, each of them a `plugin error:` entry
      carrying that plugin's cause, and placed after the diagnostics of the
      plugins before it and before those of the plugins after it. */
  lemma {:induction false} DiagnosticsPerFailure(ps: seq<Plugin>, rec: Record)
    ensures |Diagnostics(ps, rec)| == |FailingPlugins(ps, rec)|
    ensures forall i :: 0 <= i < |ps| ==>
              Diagnostics(ps, rec) ==
                Diagnostics(ps[..i], rec) +
                (if ps[i].run(rec).Threw? then [Diagnostic(ps[i].run(rec).cause)] else []) +
                Diagnostics(ps[i + 1..], rec)
  {
    DiagnosticsCount(ps, rec);
    forall i | 0 <= i < |ps|
      ensures Diagnostics(ps, rec) ==
                Diagnostics(ps[..i], rec) +
                (if ps[i].run(rec).Threw? then [Diagnostic(ps[i].run(rec).cause)] else []) +
                Diagnostics(ps[i + 1..], rec)
    {
      DiagnosticsSplitAt(ps, i, rec);
    }
  }

  /** The runs of the first `n` plugins of a list on one record. */
  function RunsOf(n: nat, rec: Record): seq<PluginRun>
  {
    seq(n, i requires 0 <= i < n => PluginRun(i, rec))
  }

  /** The effect of one emit call: nothing for a filtered call; otherwise
      the formatted line, then each plugin run in list order on the same
      record, with one diagnostic for each plugin that throws. */
  function EmitEffect(s: Settings, l: Level, text: string, opts: CallOptions, ts: string): Effect
  {
    if !Accepts(s.threshold, l) then Effect([], [])
    else
      var line := FormatLine(s, l, text, opts, ts);
      var rec := Record(line, Name(l), Rank(l), opts);
      Effect([line] + Diagnostics(s.plugins, rec), RunsOf(|s.plugins|, rec))
  }

  /** A call ranked below the threshold writes nothing and runs no plugin. */
  lemma EmitBelowThreshold(s: Settings, l: Level, text: string, opts: CallOptions, ts: string)
    requires s.threshold.Some? && Rank(l) < s.threshold.value
    ensures EmitEffect(s, l, text, opts, ts) == Effect([], [])
  {
  }

  /** An accepted call writes its line first, tagged with its level, then
      exactly one diagnostic per failing plugin; every plugin runs, in list
      order, on the record of that line, its level name and its rank. */
  lemma {:induction false} EmitAccepted(s: Settings, l: Level, text: string, opts: CallOptions, ts: string)
    requires Accepts(s.threshold, l)
    ensures var e := EmitEffect(s, l, text, opts, ts);
            var line := FormatLine(s, l, text, opts, ts);
            var rec := Record(line, Name(l), Rank(l), opts);
            e.lines == [line] + Diagnostics(s.plugins, rec) &&
            |e.lines| == 1 + |FailingPlugins(s.plugins, rec)| &&
            e.lines[0] == line && LevelOfLine(e.lines[0]) == Some(l) &&
            GetLevelValue(rec.level) == Some(rec.levelValue) &&
            |e.runs| == |s.plugins| &&
            (forall i :: 0 <= i < |e.runs| ==> e.runs[i] == PluginRun(i, rec))
  {
    var line := FormatLine(s, l, text, opts, ts);
    var rec := Record(line, Name(l), Rank(l), opts);
    DiagnosticsPerFailure(s.plugins, rec);
    FormatLineLevelRoundTrip(s, l, text, opts, ts);
  }

  /** With metadata logging off, as after construction, no call ever gets
      the metadata suffix. */
  lemma NoSuffixWithoutFlag(s: Settings, l: Level, text: string, opts: CallOptions, ts: string)
    requires !s.logMetadata
    ensures FormatLine(s, l, text, opts, ts) == Tag(l) + " <" + ts + "> (" + s.name + ") -> " + text
  {
  }

  /** Failure isolation: with three plugins of which only the second throws,
      all three run and a single diagnostic follows the line. */
  lemma {:induction false} MiddlePluginFailureIsIsolated(s: Settings, l: Level, text: string, opts: CallOptions, ts: string)
    requires Accepts(s.threshold, l) && |s.plugins| == 3
    requires var rec := Record(FormatLine(s, l, text, opts, ts), Name(l), Rank(l), opts);
             s.plugins[0].run(rec).Observed? && s.plugins[1].run(rec).Threw? && s.plugins[2].run(rec).Observed?
    ensures var e := EmitEffect(s, l, text, opts, ts);
            var rec := Record(FormatLine(s, l, text, opts, ts), Name(l), Rank(l), opts);
            e.lines == [FormatLine(s, l, text, opts, ts), Diagnostic(s.plugins[1].run(rec).cause)] &&
            e.runs == [PluginRun(0, rec), PluginRun(1, rec), PluginRun(2, rec)]
  {
    var rec := Record(FormatLine(s, l, text, opts, ts), Name(l), Rank(l), opts);
    var ps := s.plugins;
    assert ps[..2][..1][..0] == [];
    assert Diagnostics(ps[..2][..1], rec) == [];
    assert Diagnostics(ps[..2], rec) == [Diagnostic(ps[1].run(rec).cause)];
    assert Diagnostics(ps, rec) == [Diagnostic(ps[1].run(rec).cause)];
  }
}
