/** The millisecond options of `src/options.rs`: `try_parse_ms`,
    `get_duration` and its call sites `get_update_rate`,
    `get_default_time_value`, `get_time_interval`, and `get_retention`. */
module Durations {
  import opened Results
  import opened Config

  const DEFAULT_REFRESH_RATE_IN_MILLISECONDS: u64 := 250
  const DEFAULT_TIME_MILLISECONDS: u64 := 60000
  const TIME_CHANGE_MILLISECONDS: u64 := 15000
  const DEFAULT_RETENTION_MS: u64 := 600 * 1000

  const MIN_UPDATE_RATE: u64 := 250
  const MIN_DEFAULT_TIME_VALUE: u64 := 30000
  const MIN_TIME_DELTA: u64 := 1000

  // ---------------------------------------------------------------------
  // `str::parse::<u64>`: an optional '+', then one or more ASCII digits,
  // whose value must fit in 64 bits.

  predicate IsDigit(c: char) {
    '0' <= c <= '9'
  }

  predicate AllDigits(s: string) {
    forall i :: 0 <= i < |s| ==> IsDigit(s[i])
  }

  /** The value of a run of decimal digits, most significant first. */
  function DigitsValue(s: string): nat
    requires AllDigits(s)
  {
    if s == [] then 0
    else DigitsValue(s[..|s| - 1]) * 10 + (s[|s| - 1] as int - '0' as int)
  }

  /** The part of the text that must be digits: one leading '+' is skipped,
      a leading '-' is not (it is an invalid digit for an unsigned type). */
  function UnsignedDigits(s: string): string {
    if |s| > 0 && s[0] == '+' then s[1..] else s
  }

  function ParseU64(s: string): Option<u64> {
    var digits := UnsignedDigits(s);
    if |digits| == 0 || !AllDigits(digits) || DigitsValue(digits) >= U64_LIMIT then None
    else Some(DigitsValue(digits))
  }

  function DigitChar(d: nat): (c: char)
    requires d < 10
    ensures IsDigit(c)
  {
    ('0' as int + d) as char
  }

  /** The canonical decimal text of a number, without sign or leading zeros. */
  function Decimal(n: nat): (s: string)
    ensures |s| > 0 && AllDigits(s)
    ensures |s| > 1 ==> s[0] != '0'
  {
    if n < 10 then [DigitChar(n)] else Decimal(n / 10) + [DigitChar(n % 10)]
  }

  lemma {:induction false} DigitsValueOfDecimal(n: nat)
    ensures DigitsValue(Decimal(n)) == n
  {
    if n >= 10 {
      var s := Decimal(n);
      assert s[..|s| - 1] == Decimal(n / 10);
      DigitsValueOfDecimal(n / 10);
    }
  }

  /** Every u64 written in decimal, with or without a leading '+', parses back to itself. */
  lemma ParseU64Decimal(n: u64)
    ensures ParseU64(Decimal(n)) == Some(n)
    ensures ParseU64("+" + Decimal(n)) == Some(n)
  {
    DigitsValueOfDecimal(n);
    assert UnsignedDigits("+" + Decimal(n)) == Decimal(n);
  }

  /** A negative number, or any text with a non-digit after the optional '+', is refused. */
  lemma ParseU64RejectsNonDigit(s: string, k: nat)
    requires k < |UnsignedDigits(s)| && !IsDigit(UnsignedDigits(s)[k])
    ensures ParseU64(s) == None
  {
  }

  lemma ParseU64RejectsMinus(s: string)
    requires |s| > 0 && s[0] == '-'
    ensures ParseU64(s) == None
  {
    ParseU64RejectsNonDigit(s, 0);
  }

  // ---------------------------------------------------------------------
  // try_parse_ms: a human duration first, a plain u64 second.

  function TryParseMs(s: string, parseDuration: string -> Option<nat>): (r: Result<u64, ConfigError>)
    ensures r.Ok? <==> (parseDuration(s).Some? && parseDuration(s).value < U64_LIMIT)
                       || (parseDuration(s).None? && ParseU64(s).Some?)
    ensures parseDuration(s).Some? && r.Ok? ==> r.value == parseDuration(s).value
    ensures parseDuration(s).None? && r.Ok? ==> Some(r.value) == ParseU64(s)
    ensures r.Err? ==> r.error == (if parseDuration(s).Some? then DurationOverflow else Parse)
  {
    match parseDuration(s)
    case Some(ms) =>
      if ms < U64_LIMIT then Ok(ms) else Err(DurationOverflow)
    case None =>
      match ParseU64(s)
      case Some(v) => Ok(v)
      case None => Err(Parse)
  }

  /** A plain number that is not a human duration is read as milliseconds. */
  lemma PlainNumberFallback(n: u64, parseDuration: string -> Option<nat>)
    requires parseDuration(Decimal(n)).None?
    ensures TryParseMs(Decimal(n), parseDuration) == Ok(n)
  {
    ParseU64Decimal(n);
  }

  /** The unit test of `try_parse_ms`, with humantime's answers as premises. */
  lemma TryParseMsExamples(parseDuration: string -> Option<nat>)
    requires parseDuration("100s") == Some(100 * 1000)
    requires parseDuration("100") == None
    requires parseDuration("1 min") == Some(60 * 1000)
    requires parseDuration("1 hour 1 min") == Some(3660 * 1000)
    requires parseDuration("1 test") == None
    requires parseDuration("-100") == None
    ensures TryParseMs("100s", parseDuration) == Ok(100 * 1000)
    ensures TryParseMs("100", parseDuration) == Ok(100)
    ensures TryParseMs("1 min", parseDuration) == Ok(60 * 1000)
    ensures TryParseMs("1 hour 1 min", parseDuration) == Ok(3660 * 1000)
    ensures TryParseMs("1 test", parseDuration).Err?
    ensures TryParseMs("-100", parseDuration).Err?
  {
    assert Decimal(100) == "100";
    PlainNumberFallback(100, parseDuration);
    ParseU64RejectsNonDigit("1 test", 1);
    ParseU64RejectsMinus("-100");
  }

  // ---------------------------------------------------------------------
  // get_duration and its call sites.

  function RawMs(value: StringOrNum, parseDuration: string -> Option<nat>): Result<u64, ConfigError> {
    match value
    case Str(s) => TryParseMs(s, parseDuration)
    case Num(n) => Ok(n)
  }

  function GetDuration(
    value: Option<StringOrNum>, min: u64, max: Option<u64>, default: u64, whatToFix: string,
    parseDuration: string -> Option<nat>): (r: Result<u64, ConfigError>)
    ensures value.None? ==> r == Ok(default)
    ensures value.Some? && RawMs(value.value, parseDuration).Err? ==>
              r == Err(RawMs(value.value, parseDuration).error)
    ensures value.Some? && RawMs(value.value, parseDuration).Ok? ==>
              var v := RawMs(value.value, parseDuration).value;
              && (r.Ok? <==> min <= v && (max.None? || v <= max.value))
              && (r.Ok? ==> r.value == v)
              && (v < min ==> r == Err(BelowMin(whatToFix, min)))
              && (min <= v && max.Some? && max.value < v ==> r == Err(AboveMax(whatToFix, max.value)))
  {
    match value
    case None => Ok(default)
    case Some(raw) =>
      var v :- RawMs(raw, parseDuration);
      if v < min then Err(BelowMin(whatToFix, min))
      else if max.Some? && v > max.value then Err(AboveMax(whatToFix, max.value))
      else Ok(v)
  }

  /** An accepted present value lies within the bounds; the lower bound is
      reported first, even when the bounds leave no admissible value. */
  lemma GetDurationBounds(
    value: Option<StringOrNum>, min: u64, max: Option<u64>, default: u64, whatToFix: string,
    parseDuration: string -> Option<nat>)
    requires value.Some?
    ensures var r := GetDuration(value, min, max, default, whatToFix, parseDuration);
            r.Ok? ==> min <= r.value && (max.Some? ==> r.value <= max.value)
    ensures max.Some? && max.value < min ==>
              GetDuration(value, min, max, default, whatToFix, parseDuration).Err?
  {
  }

  function GetUpdateRate(config: ConfigV2, parseDuration: string -> Option<nat>): (r: Result<u64, ConfigError>)
    ensures r.Ok? ==> r.value >= MIN_UPDATE_RATE
    ensures config.general.rate.None? ==> r == Ok(DEFAULT_REFRESH_RATE_IN_MILLISECONDS)
    ensures config.general.rate.Some? ==>
              var raw := RawMs(config.general.rate.value, parseDuration);
              (r.Ok? <==> raw.Ok? && raw.value >= MIN_UPDATE_RATE) && (r.Ok? ==> r == raw)
  {
    GetDuration(config.general.rate, MIN_UPDATE_RATE, None,
                DEFAULT_REFRESH_RATE_IN_MILLISECONDS, "update rate", parseDuration)
  }

  function GetDefaultTimeValue(config: ConfigV2, retentionMs: u64, parseDuration: string -> Option<nat>)
    : (r: Result<u64, ConfigError>)
    ensures config.general.defaultTimeValue.None? ==> r == Ok(DEFAULT_TIME_MILLISECONDS)
    ensures config.general.defaultTimeValue.Some? ==>
              var raw := RawMs(config.general.defaultTimeValue.value, parseDuration);
              && (r.Ok? <==> raw.Ok? && MIN_DEFAULT_TIME_VALUE <= raw.value <= retentionMs)
              && (r.Ok? ==> r == raw)
  {
    GetDuration(config.general.defaultTimeValue, MIN_DEFAULT_TIME_VALUE, Some(retentionMs),
                DEFAULT_TIME_MILLISECONDS, "default value", parseDuration)
  }

  function GetTimeInterval(config: ConfigV2, retentionMs: u64, parseDuration: string -> Option<nat>)
    : (r: Result<u64, ConfigError>)
    ensures config.general.timeDelta.None? ==> r == Ok(TIME_CHANGE_MILLISECONDS)
    ensures config.general.timeDelta.Some? ==>
              var raw := RawMs(config.general.timeDelta.value, parseDuration);
              && (r.Ok? <==> raw.Ok? && MIN_TIME_DELTA <= raw.value <= retentionMs)
              && (r.Ok? ==> r == raw)
  {
    GetDuration(config.general.timeDelta, MIN_TIME_DELTA, Some(retentionMs),
                TIME_CHANGE_MILLISECONDS, "time delta", parseDuration)
  }

  /** Retention is parsed like the other durations but has no bounds. */
  function GetRetention(config: ConfigV2, parseDuration: string -> Option<nat>): (r: Result<u64, ConfigError>)
    ensures config.general.retention.None? ==> r == Ok(DEFAULT_RETENTION_MS)
    ensures config.general.retention.Some? ==>
              (r.Ok? <==> RawMs(config.general.retention.value, parseDuration).Ok?)
    ensures config.general.retention.Some? && r.Ok? ==>
              r == RawMs(config.general.retention.value, parseDuration)
  {
    match config.general.retention
    case Some(raw) => RawMs(raw, parseDuration)
    case None => Ok(DEFAULT_RETENTION_MS)
  }

  /** An absent default time value is not checked against retention: with
      ten seconds of retention the window is still a minute. */
  lemma AbsentDefaultTimeValueIsUnchecked(config: ConfigV2, parseDuration: string -> Option<nat>)
    requires config.general.defaultTimeValue.None?
    ensures GetDefaultTimeValue(config, 10000, parseDuration) == Ok(DEFAULT_TIME_MILLISECONDS)
    ensures DEFAULT_TIME_MILLISECONDS > 10000
  {
  }

  /** The unit tests `config_human_times` and `config_number_times_as_num`,
      with humantime's answers as premises (retention of one hour for the windows). */
  lemma ConfigTimesExamples(config: ConfigV2, numbers: ConfigV2, parseDuration: string -> Option<nat>)
    requires config.general.timeDelta == Some(Str("2 min"))
    requires config.general.defaultTimeValue == Some(Str("300s"))
    requires config.general.rate == Some(Str("1s"))
    requires config.general.retention == Some(Str("10m"))
    requires parseDuration("2 min") == Some(2 * 60 * 1000)
    requires parseDuration("300s") == Some(5 * 60 * 1000)
    requires parseDuration("1s") == Some(1000)
    requires parseDuration("10m") == Some(600000)
    requires numbers.general.timeDelta == Some(Num(120000))
    requires numbers.general.defaultTimeValue == Some(Num(300000))
    requires numbers.general.rate == Some(Num(1000))
    requires numbers.general.retention == Some(Num(600000))
    ensures GetTimeInterval(config, 60 * 60 * 1000, parseDuration) == Ok(2 * 60 * 1000)
    ensures GetDefaultTimeValue(config, 60 * 60 * 1000, parseDuration) == Ok(5 * 60 * 1000)
    ensures GetUpdateRate(config, parseDuration) == Ok(1000)
    ensures GetRetention(config, parseDuration) == Ok(600000)
    ensures GetTimeInterval(numbers, 60 * 60 * 1000, parseDuration) == Ok(2 * 60 * 1000)
    ensures GetDefaultTimeValue(numbers, 60 * 60 * 1000, parseDuration) == Ok(5 * 60 * 1000)
    ensures GetUpdateRate(numbers, parseDuration) == Ok(1000)
    ensures GetRetention(numbers, parseDuration) == Ok(600000)
  {
  }

  /** The unit test `matches_number_times_1`: a number given on the command
      line arrives as text and is read by the u64 fallback. */
  lemma NumberTextExample(config: ConfigV2, parseDuration: string -> Option<nat>)
    requires config.general.timeDelta == Some(Str("120000"))
    requires parseDuration("120000") == None
    ensures GetTimeInterval(config, 60 * 60 * 1000, parseDuration) == Ok(2 * 60 * 1000)
  {
    assert Decimal(12) == "12";
    assert Decimal(120) == "120";
    assert Decimal(1200) == "1200";
    assert Decimal(12000) == "12000";
    assert Decimal(120000) == "120000";
    PlainNumberFallback(120000, parseDuration);
  }
}
