# Leveled logger — a Dafny model

This project models `Logger`, the single class of a small Node.js logging
library (`src/index.js`). The logger has:

- a table of six severity levels with ranks 0..5 (`LOG_LEVELS`) and a static lookup, `getLevelValue`;
- a threshold. It is resolved once, at construction, from the `LOG_LEVEL` environment variable, with `info` as the default;
- one emit method per level. Each one drops calls ranked below the threshold. Otherwise it writes one formatted line, `[LEVEL] <timestamp> (name) -> text`, and then runs every plugin in order;
- plugin failure isolation. A plugin that throws becomes one `plugin error:` diagnostic, and the later plugins still run;
- a display name, `<label>-<pid>` or the bare pid.

Modules:

- `Wrappers` (`wrappers.dfy`): `Option`, used where the source yields `undefined`.
- `Levels` (`levels.dfy`): the level table, `GetLevelValue`, case mapping, threshold resolution (`ResolveThreshold`) and the filter test (`Accepts`).
- `Names` (`names.dfy`): the `name` setter's derivation (`DisplayName`) and the decimal text of the pid.
- `Emission` (`emission.dfy`): what one emit call produces, as values. This covers the formatted line (`FormatLine`), the record each plugin receives, the diagnostics (`Diagnostics`) and the whole effect of a call (`EmitEffect`).
- `LoggerClass` (`logger.dfy`): the class `Logger`. Its constructor installs the six level methods in a loop. It also has the `name` setter (`SetName`) and the shared emit closure (`Emit`, with its plugin loop `RunPlugins`). The output sink and the plugin invocations are ghost sequences that the methods extend.

The six synthesised methods `debug` … `always` are modelled as one `Emit(level, …)`.
The constructor's `emitters` map records that a method exists under each of the six names, bound to its own level, whatever the threshold.

Where the documentation and the code disagree, the model follows the code:

- The class doc comment (`src/index.js:15-24`) and the comment at lines 38-40 say that only levels at or above the threshold get a method. Line 41 installs all six.
- `logMetadata` defaults to `true` among the options, but the constructor never copies it onto the instance (lines 27, 33-35). So `this.logMetadata` is falsy and a freshly constructed logger never appends metadata. The model keeps `logMetadata` as a public field that starts `false`.
- An unrecognised `LOG_LEVEL` does not fall back to `info`. It leaves the threshold `undefined` (line 32). Then `levelValue < undefined` is false (line 48), so no call is filtered. An absent or empty `LOG_LEVEL` does select `info` (line 28).
- An `always` call can never be filtered. A resolved threshold is at most rank 5, and an unresolved one filters nothing (`AlwaysIsNeverFiltered`).

## Model

| member | source | states |
|---|---|---|
| Levels.TableKeysAreLevelNames | src/index.js:6-13 | a string is a key of the level table exactly when it is the name of one of the six levels |
| Levels.RanksFollowTableOrder | src/index.js:6-13 | the ranks are 0..5 in table order (debug, info, warn, error, fatal, always), so they increase strictly, and `always` has the largest rank |
| Levels.GetLevelValue | src/index.js:84-86 | the static lookup returns the level's rank for each of the six names and `None` (undefined) exactly for every other string |
| Levels.LowercaseUndoesUppercase | src/index.js:32 | lower-casing undoes upper-casing on a string without capitals, so e.g. `WARN` names the level `warn` |
| Levels.ResolveThresholdDefault | src/index.js:28-32 | an absent or empty `LOG_LEVEL` gives the threshold rank of `info` |
| Levels.ResolveThresholdIgnoresCase | src/index.js:28-32 | a `LOG_LEVEL` that equals a level name after lower-casing gives that level's rank |
| Levels.ResolveThresholdOfUppercaseName | src/index.js:28-32 | the upper-case spelling of a level name, such as `WARN`, selects that level's rank |
| Levels.ResolveThresholdUnrecognized | src/index.js:28-32 | any other non-empty `LOG_LEVEL` leaves the threshold undefined |
| Levels.ResolveThresholdIsARank | src/index.js:28-32 | the resolved threshold is always undefined or the rank of some level |
| Levels.AcceptsExactly | src/index.js:48 | with a defined threshold a call passes exactly when its rank is at least the threshold; with an undefined threshold every call passes |
| Levels.AcceptsUpward | src/index.js:48 | if a level passes the filter, every level ranked at or above it passes too |
| Levels.AcceptedLevelsFromThreshold | src/index.js:41-48 | under the threshold of level t, the levels that pass are t and every level after it in the table |
| Levels.AlwaysIsNeverFiltered | src/index.js:28-48 | whatever `LOG_LEVEL` holds, an `always` call passes the filter |
| Names.DecimalRoundTrip | src/index.js:74-76 | the pid's decimal text is a non-empty run of digits, with no leading zero for a non-zero pid, and it reads back as the pid |
| Names.DisplayNameParts | src/index.js:72-77 | with a truthy label the display name is the label, a dash and then exactly the pid's decimal text; without one it is exactly the pid's decimal text |
| Names.DisplayNameRoundTrip | src/index.js:72-77 | whatever the label, the pid can be read back from the end of the display name |
| Emission.TagValues | src/index.js:51 | the upper-cased level tags are `[DEBUG]`, `[INFO]`, `[WARN]`, `[ERROR]`, `[FATAL]` and `[ALWAYS]` |
| Emission.FormatLineLevelRoundTrip | src/index.js:50-51 | the level of a formatted line can be read back from its leading tag |
| Emission.FormatLineParts | src/index.js:50-56 | the line starts with the tag, the bracketed timestamp, the parenthesised name and ` -> `, followed by the text; without the flag or without metadata nothing follows the text, and with both the line ends in a space and the serialized metadata |
| Emission.NoSuffixWithoutFlag | src/index.js:54-56 | when `logMetadata` is falsy, as after construction, no line gets a metadata suffix, whatever the call's metadata |
| Emission.DiagnosticsPerFailure | src/index.js:61-67 | there are as many diagnostics as failing plugins. At every position of the list, the diagnostics are those of the earlier plugins, then `plugin error: ` with this plugin's cause if it throws (nothing if it does not), then those of the later plugins |
| Emission.DiagnosticsAppend | src/index.js:61-67 | the diagnostics of a list of plugins are those of its first part followed by those of its rest, so the list order is kept |
| Emission.EmitBelowThreshold | src/index.js:48 | a call ranked below a defined threshold writes nothing and runs no plugin |
| Emission.EmitAccepted | src/index.js:46-68 | an accepted call writes its line first, tagged with its level, followed by exactly the plugin diagnostics, one per failing plugin. Every plugin runs, in list order, on the same record: the line, the level name and the level's rank |
| Emission.MiddlePluginFailureIsIsolated | src/index.js:61-67 | with three plugins where only the second throws, all three run and a single diagnostic follows the line |
| LoggerClass.Logger.constructor | src/index.js:26-42 | the threshold is resolved from `LOG_LEVEL`, the name comes from the setter, and the plugins default to an empty list. `logMetadata` stays unset (false). A method is installed under every one of the six level names, bound to that level. The output is empty |
| LoggerClass.Logger.SetName | src/index.js:72-78 | the setter stores `<label>-<pid>` for a truthy label and the pid otherwise, and changes nothing else |
| LoggerClass.Logger.Emit | src/index.js:44-69 | a call appends to the output and to the plugin runs exactly what `EmitEffect` gives for the logger's current settings, and changes nothing else about the logger |
| LoggerClass.Logger.RunPlugins | src/index.js:61-68 | the loop runs every plugin in list order on the one record, appends one diagnostic per failing plugin, and always finishes |

## Left out

- `console.log` as the sink (src/index.js:35): the output is a ghost sequence of lines. The field `output` can be reassigned in the source; the model does not allow that.
- The two-argument diagnostic `output('plugin error:', e)` (src/index.js:65): modelled as one line, `plugin error: ` followed by the rendered error. How Node renders the error object is not modelled.
- `new Date().toLocaleString()` (src/index.js:50): the timestamp text is a parameter of `Emit`.
- `JSON.stringify` (src/index.js:55): a serializer function supplied to the constructor. A serializer that throws (for example on circular metadata) would reject the call's promise before the line is written; that path is not modelled.
- `process.env['LOG_LEVEL']` and `process.pid` (src/index.js:28, 74-76): constructor parameters.
- The `async` wrapper and its Promise (src/index.js:45): `Emit` is an ordinary method, since everything in it runs synchronously.
- What plugins do internally (src/index.js:63): each plugin is a function from the record to an outcome, either observed or threw. A plugin that returns a rejected promise, or that calls back into the logger, is not modelled.
- Levels.Lowercase: `toLowerCase` and `toUpperCase` are modelled on ASCII letters only. For the six level names this recognises exactly the same `LOG_LEVEL` values, because no other character lowercases to one of the letters those names use.
- Levels.GetLevelValue: keys inherited from `Object.prototype` (such as `constructor` or `toString`) return a non-rank value in the source, not `undefined`. The model returns `None`, which filters the same way, since comparing a number with such a value is false.
- An explicit `plugins: undefined` option overrides the default `[]` and makes the plugin loop throw. The model treats an absent plugin list as empty.
- Non-string `text`, `name` and `metadata` values and JavaScript's coercion of them to text: the text and the label are strings, and a falsy `metadata` is `None`.
- The `name` getter (src/index.js:80-82) is the public field `name`.
- The per-call options keep only `metadata`. The source hands the caller's whole `opts` object to every plugin (src/index.js:63), so a plugin can read any other key; the model's plugins cannot.
- LoggerClass.Logger.SetName: for a falsy label the source stores the number `process.pid`, so the getter returns a number. The model stores its decimal text, which is what the formatted line shows.
- LoggerClass.Logger.constructor: the plugin list is a value copied into each instance. In the source, every logger built without `plugins` shares the single `DEFAULT_OPTS.plugins` array (src/index.js:5, 27, 34), and a logger built with `plugins` keeps the caller's array by reference. So pushing onto one logger's `plugins` changes the list of every logger that shares the array. The model does not capture that aliasing.
