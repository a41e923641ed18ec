/** Unit files as the supervisor sees them after loading, and the duration syntax of
    their `*-sec` fields. */
module Config {

  datatype Option<+T> = None | Some(value: T)

  // ---------- Unit files ----------

  datatype ServiceType = Simple | Forking | Oneshot | Notify

  datatype RestartPolicy = No | Always | OnFailure | OnAbnormal

  datatype UnitSection = UnitSection(
    after: seq<string>, before: seq<string>,
    requires_: seq<string>, wants: seq<string>, bindsTo: seq<string>)

  datatype ServiceSection = ServiceSection(
    kind: ServiceType, restart: RestartPolicy, restartSec: string,
    startLimitBurst: nat, startLimitIntervalSec: string,
    timeoutStartSec: string, timeoutStopSec: string, remainAfterExit: bool)

  datatype InstallSection = InstallSection(wantedBy: seq<string>, requiredBy: seq<string>)

  datatype UnitFile = UnitFile(unit: UnitSection, service: Option<ServiceSection>, install: InstallSection)

  datatype LoadedUnit = LoadedUnit(name: string, file: UnitFile)

  // ---------- Durations ----------

  /** Durations and instants are counted in nanoseconds. */
  const MILLI: nat := 1_000_000
  const SECOND: nat := 1_000_000_000
  const U64_RANGE: nat := 0x1_0000_0000_0000_0000

  predicate IsWhiteSpace(c: char) {
    || '\U{0009}' <= c <= '\U{000D}' || c == ' ' || c == '\U{0085}' || c == '\U{00A0}'
    || c == '\U{1680}' || '\U{2000}' <= c <= '\U{200A}' || c == '\U{2028}' || c == '\U{2029}'
    || c == '\U{202F}' || c == '\U{205F}' || c == '\U{3000}'
  }

  predicate IsDigit(c: char) { '0' <= c <= '9' }

  function Trim(s: string): (r: string)
    decreases |s|
  {
    if s == [] then s
    else if IsWhiteSpace(s[0]) then Trim(s[1..])
    else if IsWhiteSpace(s[|s| - 1]) then Trim(s[..|s| - 1])
    else s
  }

  predicate EndsWith(s: string, suffix: string) {
    |suffix| <= |s| && forall i :: 0 <= i < |suffix| ==> s[|s| - |suffix| + i] == suffix[i]
  }

  function DigitsValue(s: string): (n: nat)
    requires forall c :: c in s ==> IsDigit(c)
  {
    if s == [] then 0
    else
      var last := s[|s| - 1];
      assert IsDigit(last) by { assert last in s; }
      10 * DigitsValue(s[..|s| - 1]) + (last as int) - ('0' as int)
  }

  /** `str::parse` for an unsigned type with `range` values: an optional plus sign,
      then at least one digit, and no overflow. */
  function ParseUnsigned(s: string, range: nat): (r: Option<nat>)
    ensures r.Some? ==> r.value < range
  {
    var digits := if s != [] && s[0] == '+' then s[1..] else s;
    if digits == [] || exists c :: c in digits && !IsDigit(c) then None
    else if DigitsValue(digits) < range then Some(DigitsValue(digits))
    else None
  }

  datatype TimeUnit = Millis | Seconds | Minutes | Hours | Bare

  /** The unit a duration ends with, "ms" before the one-letter units. */
  function SuffixUnit(s: string): TimeUnit {
    if EndsWith(s, "ms") then Millis
    else if EndsWith(s, "h") then Hours
    else if EndsWith(s, "m") then Minutes
    else if EndsWith(s, "s") then Seconds
    else Bare
  }

  function Suffix(u: TimeUnit): string {
    match u
    case Millis => "ms" case Seconds => "s" case Minutes => "m" case Hours => "h" case Bare => ""
  }

  /** The multiplication by 60 or 3600 is on 64-bit integers. */
  function InNanos(v: nat, u: TimeUnit): nat {
    match u
    case Millis => v * MILLI
    case Minutes => ((v * 60) % U64_RANGE) * SECOND
    case Hours => ((v * 3600) % U64_RANGE) * SECOND
    case _ => v * SECOND
  }

  /** `parse_duration`: "100ms", "5s", "1m", "1h" or bare seconds. */
  function ParseDuration(text: string): (r: Option<nat>) {
    var s := Trim(text);
    var u := SuffixUnit(s);
    match ParseUnsigned(s[..|s| - |Suffix(u)|], U64_RANGE)
    case None => None
    case Some(v) => Some(InNanos(v, u))
  }

  function DurationOr(text: string, default: nat): nat {
    var d := ParseDuration(text);
    if d.Some? then d.value else default
  }

  // ---------- Writing a duration and reading it back ----------

  function Decimal(n: nat): (s: string)
    ensures s != [] && forall c :: c in s ==> IsDigit(c)
    ensures DigitsValue(s) == n
  {
    var last := ['0' + (n % 10) as char];
    if n < 10 then
      assert last[..0] == [];
      last
    else
      var s := Decimal(n / 10) + last;
      assert s[..|s| - 1] == Decimal(n / 10);
      s
  }

  /** The seconds a unit is worth, where the source multiplies in 64 bits. */
  function Scale(u: TimeUnit): nat {
    match u case Minutes => 60 case Hours => 3600 case _ => 1
  }

  function Nanos(u: TimeUnit): nat {
    match u
    case Millis => MILLI case Seconds => SECOND case Minutes => 60 * SECOND
    case Hours => 3600 * SECOND case Bare => SECOND
  }

  lemma NumberIsTrimmed(d: string, u: TimeUnit)
    requires d != [] && forall c :: c in d ==> IsDigit(c)
    ensures Trim(d + Suffix(u)) == d + Suffix(u)
  {
    var s := d + Suffix(u);
    assert s[0] == d[0] && IsDigit(d[0]);
    assert s[|s| - 1] in Suffix(u) || IsDigit(s[|s| - 1]);
  }

  lemma SuffixIsRecognised(d: string, u: TimeUnit)
    requires d != [] && IsDigit(d[|d| - 1])
    ensures var s := d + Suffix(u); SuffixUnit(s) == u && s[..|s| - |Suffix(u)|] == d
  {
    var s := d + Suffix(u);
    assert "ms"[0] == 'm' && "ms"[1] == 's' && "h"[0] == 'h' && "m"[0] == 'm' && "s"[0] == 's';
    assert u == Seconds ==> s[|s| - 2] == d[|d| - 1];
  }

  lemma InNanosExact(n: nat, u: TimeUnit)
    requires n * Scale(u) < U64_RANGE
    ensures InNanos(n, u) == n * Nanos(u)
  {
  }

  lemma NumberWithUnit(d: string, n: nat, u: TimeUnit)
    requires d != [] && (forall c :: c in d ==> IsDigit(c)) && ParseUnsigned(d, U64_RANGE) == Some(n)
    ensures ParseDuration(d + Suffix(u)) == Some(InNanos(n, u))
  {
    NumberIsTrimmed(d, u);
    SuffixIsRecognised(d, u);
  }

  lemma DecimalParses(n: nat)
    requires n < U64_RANGE
    ensures ParseUnsigned(Decimal(n), U64_RANGE) == Some(n)
  {
    var d := Decimal(n);
    assert d[0] in d;
  }

  /** Every duration written as a number and a unit is read as that many units:
      "ms" is not mistaken for "s" or "m", and no value that fits 64 bits in seconds (or in
      milliseconds, when so written) is refused. */
  lemma DurationRoundTrip(n: nat, u: TimeUnit)
    requires n * Scale(u) < U64_RANGE
    ensures ParseDuration(Decimal(n) + Suffix(u)) == Some(n * Nanos(u))
  {
    DecimalParses(n);
    NumberWithUnit(Decimal(n), n, u);
    InNanosExact(n, u);
  }

  // ---------- What is read, and what is not ----------

  predicate AllSpace(s: string) {
    forall c :: c in s ==> IsWhiteSpace(c)
  }

  /** Nothing but white space is trimmed, and all of it at both ends. */
  lemma {:induction false} TrimTrims(s: string) returns (before: string, after: string)
    ensures s == before + Trim(s) + after && AllSpace(before) && AllSpace(after)
    ensures Trim(s) != [] ==> !IsWhiteSpace(Trim(s)[0]) && !IsWhiteSpace(Trim(s)[|Trim(s)| - 1])
    decreases |s|
  {
    hide IsWhiteSpace;
    if s != [] && IsWhiteSpace(s[0]) {
      before, after := TrimTrims(s[1..]);
      assert s == [s[0]] + s[1..];
      before := [s[0]] + before;
    } else if s != [] && IsWhiteSpace(s[|s| - 1]) {
      before, after := TrimTrims(s[..|s| - 1]);
      assert s == s[..|s| - 1] + [s[|s| - 1]];
      after := after + [s[|s| - 1]];
    } else {
      before, after := [], [];
    }
  }

  /** Digits, after an optional plus sign, that stand for n. */
  ghost predicate IsNumber(s: string, n: nat) {
    var digits := if s != [] && s[0] == '+' then s[1..] else s;
    digits != [] && (forall c :: c in digits ==> IsDigit(c)) && DigitsValue(digits) == n
  }

  /** The trimmed text is a number below 2^64 and this unit. */
  ghost predicate Says(text: string, n: nat, u: TimeUnit) {
    exists number :: Trim(text) == number + Suffix(u) && IsNumber(number, n) && n < U64_RANGE
  }

  /** A duration is read exactly from a number below 2^64 with one of the five units; any
      other text is refused. */
  lemma ParseDurationIff(text: string, v: nat)
    ensures ParseDuration(text) == Some(v) <==> exists n: nat, u :: Says(text, n, u) && v == InNanos(n, u)
  {
    hide Trim, DigitsValue, InNanos, EndsWith;
    var s := Trim(text);
    var u := SuffixUnit(s);
    SuffixSplits(s);
    var number := s[..|s| - |Suffix(u)|];
    if ParseDuration(text) == Some(v) {
      var n := ParseUnsigned(number, U64_RANGE).value;
      assert IsNumber(number, n);
      assert Says(text, n, u) && v == InNanos(n, u);
    }
    forall n: nat, w | Says(text, n, w) && v == InNanos(n, w) ensures ParseDuration(text) == Some(v) {
      var num :| s == num + Suffix(w) && IsNumber(num, n) && n < U64_RANGE;
      NumberEndsInDigit(num, n);
      SuffixIsRecognised(num, w);
    }
  }

  lemma NumberEndsInDigit(number: string, n: nat)
    requires IsNumber(number, n)
    ensures number != [] && IsDigit(number[|number| - 1])
  {
    var digits := if number[0] == '+' then number[1..] else number;
    assert digits[|digits| - 1] in digits && digits[|digits| - 1] == number[|number| - 1];
  }

  lemma SuffixSplits(s: string)
    ensures |Suffix(SuffixUnit(s))| <= |s| && s == s[..|s| - |Suffix(SuffixUnit(s))|] + Suffix(SuffixUnit(s))
  {
    var u := SuffixUnit(s);
    assert EndsWith(s, Suffix(u));
  }

  /** A field that holds this duration, or one that cannot be read and falls back to it. */
  ghost predicate IsDuration(text: string, default: nat, d: nat) {
    ParseDuration(text) == Some(d) || (ParseDuration(text) == None && d == default)
  }
}
