/** The level table (`LOG_LEVELS`), the static lookup `getLevelValue`, the
    resolution of the threshold from `LOG_LEVEL`, and the filter test that
    every emit call performs. */
module Levels {
  import opened Wrappers

  /** The six severities, in the order the level table lists them. */
  datatype Level = Debug | Info | Warn | Error | Fatal | Always

  /** The levels in table order, which is also the order in which the
      constructor walks the table's keys. */
  const AllLevels: seq<Level> := [Debug, Info, Warn, Error, Fatal, Always]

  /** `LOG_LEVELS`: level name to rank. */
  const LogLevels: map<string, nat> :=
    map["debug" := 0, "info" := 1, "warn" := 2, "error" := 3, "fatal" := 4, "always" := 5]

  /** The table key of a level. */
  function Name(l: Level): string
  {
    match l
    case Debug => "debug"
    case Info => "info"
    case Warn => "warn"
    case Error => "error"
    case Fatal => "fatal"
    case Always => "always"
  }

  /** The rank an emit call looks up for its level: `LOG_LEVELS[level]`. */
  function Rank(l: Level): nat
  {
    LogLevels[Name(l)]
  }

  /** The table holds exactly the six names of the levels. */
  lemma {:induction false} TableKeysAreLevelNames(s: string)
    ensures s in LogLevels <==> exists l: Level :: Name(l) == s
  {
    if s in LogLevels {
      assert s == "debug" || s == "info" || s == "warn" || s == "error" || s == "fatal" || s == "always";
      if s == "debug" { assert Name(Debug) == s; }
      else if s == "info" { assert Name(Info) == s; }
      else if s == "warn" { assert Name(Warn) == s; }
      else if s == "error" { assert Name(Error) == s; }
      else if s == "fatal" { assert Name(Fatal) == s; }
      else { assert Name(Always) == s; }
    }
  }

  /** The ranks are 0..5 in table order, so they increase strictly along it,
      and `always` has the largest rank. */
  lemma RanksFollowTableOrder()
    ensures forall i :: 0 <= i < |AllLevels| ==> Rank(AllLevels[i]) == i
    ensures forall i, j :: 0 <= i < j < |AllLevels| ==> Rank(AllLevels[i]) < Rank(AllLevels[j])
    ensures forall l: Level :: Rank(l) <= Rank(Always)
  {
  }

  /** The static utility `Logger.getLevelValue`: the rank of a level name,
      or `None` (the source's `undefined`) for any other string. */
  function GetLevelValue(s: string): (r: Option<nat>)
    ensures forall l: Level :: Name(l) == s ==> r == Some(Rank(l))
    ensures r.None? <==> forall l: Level :: Name(l) != s
  {
    TableKeysAreLevelNames(s);
    if s in LogLevels then Some(LogLevels[s]) else None
  }

  /** ASCII case mapping, standing in for `toLowerCase` / `toUpperCase`. */
  function LowerChar(c: char): char
  {
    if 'A' <= c <= 'Z' then (c as int + 32) as char else c
  }

  function UpperChar(c: char): char
  {
    if 'a' <= c <= 'z' then (c as int - 32) as char else c
  }

  function Lowercase(s: string): string
  {
    seq(|s|, i requires 0 <= i < |s| => LowerChar(s[i]))
  }

  function Uppercase(s: string): string
  {
    seq(|s|, i requires 0 <= i < |s| => UpperChar(s[i]))
  }

  /** Lowercasing undoes uppercasing on a string with no capital letters; in
      particular `LOG_LEVEL=WARN` names the level `warn`. */
  lemma LowercaseUndoesUppercase(s: string)
    requires forall i :: 0 <= i < |s| ==> !('A' <= s[i] <= 'Z')
    ensures Lowercase(Uppercase(s)) == s
  {
  }

  /** The level name taken from the environment: `LOG_LEVEL || 'info'`,
      so an absent or empty variable both select `info`. */
  function SelectedName(env: Option<string>): string
  {
    if env.Some? && env.value != "" then env.value else "info"
  }

  /** The threshold stored at construction: the rank of the lower-cased
      selected name, `None` when that is not a level name. */
  function ResolveThreshold(env: Option<string>): Option<nat>
  {
    GetLevelValue(Lowercase(SelectedName(env)))
  }

  /** Without a usable `LOG_LEVEL` the threshold is the rank of `info`. */
  lemma ResolveThresholdDefault(env: Option<string>)
    requires env.None? || env.value == ""
    ensures ResolveThreshold(env) == Some(Rank(Info))
  {
    assert Lowercase("info") == "info";
  }

  /** A name matching a level up to case selects that level's rank. */
  lemma ResolveThresholdIgnoresCase(env: string, l: Level)
    requires env != "" && Lowercase(env) == Name(l)
    ensures ResolveThreshold(Some(env)) == Some(Rank(l))
  {
  }

  /** The upper-case spelling of a level name, such as `LOG_LEVEL=WARN`,
      selects that level. */
  lemma {:induction false} ResolveThresholdOfUppercaseName(l: Level)
    ensures ResolveThreshold(Some(Uppercase(Name(l)))) == Some(Rank(l))
  {
    LowercaseUndoesUppercase(Name(l));
    ResolveThresholdIgnoresCase(Uppercase(Name(l)), l);
  }

  /** Any other name leaves the threshold undefined. */
  lemma ResolveThresholdUnrecognized(env: string)
    requires env != "" && forall l: Level :: Lowercase(env) != Name(l)
    ensures ResolveThreshold(Some(env)) == None
  {
  }

  /** Whatever the environment holds, the threshold is undefined or the rank
      of some level. */
  lemma ResolveThresholdIsARank(env: Option<string>)
    ensures ResolveThreshold(env) == None || exists l: Level :: ResolveThreshold(env) == Some(Rank(l))
  {
    var s := Lowercase(SelectedName(env));
    if ResolveThreshold(env).Some? {
      TableKeysAreLevelNames(s);
      var l: Level :| Name(l) == s;
      assert ResolveThreshold(env) == Some(Rank(l));
    }
  }

  /** The filter of an emit call: it is dropped when `levelValue <
      SELECTED_LEVEL`. With an undefined threshold that comparison is false
      in the source, so nothing is dropped. */
  predicate Accepts(threshold: Option<nat>, l: Level)
  {
    !(threshold.Some? && Rank(l) < threshold.value)
  }

  /** A defined threshold passes exactly the levels ranked at or above it;
      an undefined one passes every level. */
  lemma AcceptsExactly(threshold: Option<nat>, l: Level)
    ensures threshold.None? ==> Accepts(threshold, l)
    ensures threshold.Some? ==> (Accepts(threshold, l) <==> threshold.value <= Rank(l))
  {
  }

  /** Passing the filter is upward closed in the level order. */
  lemma AcceptsUpward(threshold: Option<nat>, l: Level, m: Level)
    requires Rank(l) <= Rank(m) && Accepts(threshold, l)
    ensures Accepts(threshold, m)
  {
  }

  /** Under the threshold of a level `t`, the levels that pass are `t` and
      every level after it in the table. */
  lemma AcceptedLevelsFromThreshold(t: Level)
    ensures forall i :: 0 <= i < |AllLevels| ==>
              (Accepts(Some(Rank(t)), AllLevels[i]) <==> Rank(t) <= i)
  {
    RanksFollowTableOrder();
  }

  /** An `always` call is never dropped, whatever `LOG_LEVEL` holds: a
      resolved threshold is at most the rank of `always`, and an unresolved
      one filters nothing. */
  lemma {:induction false} AlwaysIsNeverFiltered(env: Option<string>)
    ensures Accepts(ResolveThreshold(env), Always)
  {
    ResolveThresholdIsARank(env);
    RanksFollowTableOrder();
  }
}
