/** The `name` setter: a display name built from an optional label and the
    process id, rendered as the decimal text a template literal produces. */
module Names {
  import opened Wrappers

  predicate IsDigit(c: char)
  {
    '0' <= c <= '9'
  }

  predicate AllDigits(s: string)
  {
    forall i :: 0 <= i < |s| ==> IsDigit(s[i])
  }

  function DigitChar(d: nat): char
    requires d < 10
  {
    ('0' as int + d) as char
  }

  /** The decimal text of a number, as `${process.pid}` renders it. */
  function DecimalString(n: nat): string
    decreases n
  {
    if n < 10 then [DigitChar(n)] else DecimalString(n / 10) + [DigitChar(n % 10)]
  }

  /** The number a string of decimal digits denotes. */
  function DecimalValue(s: string): nat
    requires AllDigits(s)
  {
    if s == [] then 0
    else DecimalValue(s[..|s| - 1]) * 10 + (s[|s| - 1] as int - '0' as int)
  }

  /** The decimal text of a number is a non-empty run of digits, without a
      leading zero unless the number is zero, that reads back as that number. */
  lemma {:induction false} DecimalRoundTrip(n: nat)
    ensures DecimalString(n) != [] && AllDigits(DecimalString(n))
    ensures n > 0 ==> DecimalString(n)[0] != '0'
    ensures DecimalValue(DecimalString(n)) == n
    decreases n
  {
    if n >= 10 {
      DecimalRoundTrip(n / 10);
      var s := DecimalString(n);
      assert s[..|s| - 1] == DecimalString(n / 10);
    }
  }

  /** The longest run of digits at the end of a string. */
  function TrailingDigits(s: string): (r: string)
    ensures AllDigits(r) && |r| <= |s| && s[|s| - |r|..] == r
  {
    if s == [] || !IsDigit(s[|s| - 1]) then []
    else TrailingDigits(s[..|s| - 1]) + [s[|s| - 1]]
  }

  /** A digit run placed after a non-digit (or at the start) is exactly the
      trailing digit run of the whole string. */
  lemma {:induction false} TrailingDigitsOfSuffix(p: string, d: string)
    requires AllDigits(d)
    requires p == [] || !IsDigit(p[|p| - 1])
    ensures TrailingDigits(p + d) == d
    decreases |d|
  {
    if d == [] {
      assert p + d == p;
    } else {
      var d' := d[..|d| - 1];
      TrailingDigitsOfSuffix(p, d');
      assert (p + d)[..|p + d| - 1] == p + d';
    }
  }

  /** JavaScript truthiness of the `name` option: absent and `""` are falsy. */
  predicate IsTruthy(given: Option<string>)
  {
    given.Some? && given.value != ""
  }

  /** The value the `name` setter stores: `<label>-<pid>` for a truthy label,
      the bare pid otherwise. */
  function DisplayName(given: Option<string>, pid: nat): string
  {
    if IsTruthy(given) then given.value + "-" + DecimalString(pid) else DecimalString(pid)
  }

  /** The pid read back from the end of a display name. */
  function PidOf(name: string): Option<nat>
  {
    var d := TrailingDigits(name);
    if d == [] then None else Some(DecimalValue(d))
  }

  /** With a truthy label the display name is that label, a dash and the
      pid's decimal text; without one it is the pid's decimal text alone. */
  lemma {:induction false} DisplayNameParts(given: Option<string>, pid: nat)
    ensures IsTruthy(given) ==>
              var name := DisplayName(given, pid);
              |name| > |given.value| && name[..|given.value|] == given.value && name[|given.value|] == '-' &&
              name[|given.value| + 1..] == DecimalString(pid)
    ensures !IsTruthy(given) ==> DisplayName(given, pid) == DecimalString(pid) && AllDigits(DisplayName(given, pid))
  {
    DecimalRoundTrip(pid);
    if IsTruthy(given) {
      assert DisplayName(given, pid) == (given.value + "-") + DecimalString(pid);
    }
  }

  /** The process id can always be read back from the end of a display
      name, whatever the label. */
  lemma {:induction false} DisplayNameRoundTrip(given: Option<string>, pid: nat)
    ensures PidOf(DisplayName(given, pid)) == Some(pid)
  {
    DecimalRoundTrip(pid);
    var d := DecimalString(pid);
    if IsTruthy(given) {
      var p := given.value + "-";
      assert DisplayName(given, pid) == p + d;
      TrailingDigitsOfSuffix(p, d);
    } else {
      TrailingDigitsOfSuffix([], d);
      assert [] + d == d;
    }
  }
}
