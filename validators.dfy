/** The other validators of `src/options.rs`: `get_temperature`,
    `get_default_widget_and_count`, `get_ignore_list`, `get_color_scheme`,
    `get_enable_cache_memory` and the process-column set built in `init_app`. */
module Validators {
  import opened Results
  import opened Config

  // ---------------------------------------------------------------------
  // get_temperature

  /** The names accepted in the `temperature_type` field. */
  function TemperatureFromName(s: string): Option<TemperatureType> {
    if s == "fahrenheit" || s == "f" then Some(Fahrenheit)
    else if s == "kelvin" || s == "k" then Some(Kelvin)
    else if s == "celsius" || s == "c" then Some(Celsius)
    else None
  }

  function LongName(t: TemperatureType): string {
    match t
    case Celsius => "celsius"
    case Kelvin => "kelvin"
    case Fahrenheit => "fahrenheit"
  }

  function ShortName(t: TemperatureType): string {
    match t
    case Celsius => "c"
    case Kelvin => "k"
    case Fahrenheit => "f"
  }

  /** Both names of every unit are accepted, and nothing else is. */
  lemma TemperatureNames(s: string)
    ensures forall t: TemperatureType ::
              TemperatureFromName(LongName(t)) == Some(t) && TemperatureFromName(ShortName(t)) == Some(t)
    ensures TemperatureFromName(s).Some? ==>
              s == LongName(TemperatureFromName(s).value) || s == ShortName(TemperatureFromName(s).value)
  {
  }

  function GetTemperature(config: ConfigV2): (r: Result<TemperatureType, ConfigError>)
    ensures config.temperature.args.celsius ==> r == Ok(Celsius)
    ensures !config.temperature.args.celsius && config.temperature.args.fahrenheit ==> r == Ok(Fahrenheit)
    ensures (!config.temperature.args.celsius && !config.temperature.args.fahrenheit
             && config.temperature.args.kelvin) ==> r == Ok(Kelvin)
    ensures (!config.temperature.args.celsius && !config.temperature.args.fahrenheit
             && !config.temperature.args.kelvin) ==>
              match config.temperature.temperatureType
              case None => r == Ok(Celsius)
              case Some(name) =>
                if TemperatureFromName(name).Some? then r == Ok(TemperatureFromName(name).value)
                else r == Err(InvalidTemperatureType(name))
  {
    var args := config.temperature.args;
    if args.celsius then Ok(Celsius)
    else if args.fahrenheit then Ok(Fahrenheit)
    else if args.kelvin then Ok(Kelvin)
    else match config.temperature.temperatureType
      case Some(name) =>
        (match TemperatureFromName(name)
         case Some(t) => Ok(t)
         case None => Err(InvalidTemperatureType(name)))
      case None => Ok(Celsius)
  }

  /** An error comes only from an unknown name in the file, never from a flag. */
  lemma TemperatureErrorsOnlyFromName(config: ConfigV2)
    ensures GetTemperature(config).Err? <==>
              && !config.temperature.args.celsius
              && !config.temperature.args.fahrenheit
              && !config.temperature.args.kelvin
              && config.temperature.temperatureType.Some?
              && TemperatureFromName(config.temperature.temperatureType.value).None?
  {
  }

  /** The unit tests: no setting gives Celsius, `-k` gives Kelvin, the file's
      `temperature_type = 'kelvin'` gives Kelvin, and a `kelvin = true` key in
      the file (which is not the command-line flag) leaves Celsius. */
  lemma TemperatureExamples(plain: ConfigV2, flag: ConfigV2, named: ConfigV2)
    requires plain.temperature == TemperatureConfig(TemperatureArgs(false, false, false), None)
    requires flag.temperature == TemperatureConfig(TemperatureArgs(false, false, true), None)
    requires named.temperature == TemperatureConfig(TemperatureArgs(false, false, false), Some("kelvin"))
    ensures GetTemperature(plain) == Ok(Celsius)
    ensures GetTemperature(flag) == Ok(Kelvin)
    ensures GetTemperature(named) == Ok(Kelvin)
  {
  }

  // ---------------------------------------------------------------------
  // get_default_widget_and_count

  function GetDefaultWidgetAndCount(
    config: ConfigV2, parseWidgetType: string -> Option<BottomWidgetType>)
    : (r: Result<(Option<BottomWidgetType>, u64), ConfigError>)
    ensures var name, count := config.general.defaultWidgetType, config.general.defaultWidgetCount;
            && (name.Some? && parseWidgetType(name.value).None? ==> r == Err(InvalidWidgetType(name.value)))
            && (name.None? && count.Some? ==> r == Err(DefaultCountWithoutType))
            && (name.None? && count.None? ==> r == Ok((None, 1)))
            && (name.Some? && parseWidgetType(name.value).Some? ==>
                  r == Ok((parseWidgetType(name.value), if count.Some? then count.value else 1)))
  {
    var widgetType :- match config.general.defaultWidgetType
      case None => Ok(None)
      case Some(name) =>
        (match parseWidgetType(name)
         case Some(t) => Ok(Some(t))
         case None => Err(InvalidWidgetType(name)));
    var widgetCount: Option<u64> := match config.general.defaultWidgetCount
      case None => None
      case Some(c) => Some(c);
    match (widgetType, widgetCount)
    case (Some(t), Some(c)) => Ok((Some(t), c))
    case (Some(t), None) => Ok((Some(t), 1))
    case (None, Some(_)) => Err(DefaultCountWithoutType)
    case (None, None) => Ok((None, 1))
  }

  /** A count is accepted only together with a type. */
  lemma DefaultCountNeedsType(config: ConfigV2, parseWidgetType: string -> Option<BottomWidgetType>)
    ensures var r := GetDefaultWidgetAndCount(config, parseWidgetType);
            r.Ok? && r.value.0.None? ==> config.general.defaultWidgetCount.None? && r.value.1 == 1
  {
  }

  // ---------------------------------------------------------------------
  // get_enable_cache_memory

  /** Cache memory is only ever counted outside Windows, and only when asked for. */
  function GetEnableCacheMemory(config: ConfigV2, platform: Platform): (r: bool)
    ensures r <==> !platform.isWindows && config.enableCacheMemory == Some(true)
  {
    if !platform.isWindows && config.enableCacheMemory.Some? then config.enableCacheMemory.value
    else false
  }

  // ---------------------------------------------------------------------
  // get_ignore_list

  /** A compiled filter; each compiled regex is represented by the pattern text it was built from. */
  datatype Filter = Filter(list: seq<string>, isListIgnored: bool)

  function AnchorStart(l: IgnoreList): string {
    if l.wholeWord then "^" else ""
  }

  function CaseFlag(l: IgnoreList): string {
    if l.caseSensitive then "" else "(?i)"
  }

  function AnchorEnd(l: IgnoreList): string {
    if l.wholeWord then "$" else ""
  }

  /** What an entry contributes: itself as a regex, or its escaped text. */
  function PatternBody(l: IgnoreList, name: string, escape: string -> string): string {
    if l.regex then name else escape(name)
  }

  /** The regex source built for one entry. */
  function IgnorePattern(l: IgnoreList, name: string, escape: string -> string): string {
    AnchorStart(l) + CaseFlag(l) + PatternBody(l, name, escape) + AnchorEnd(l)
  }

  /** The pieces can be read back out of the pattern: the anchors at its two
      ends, the case flag after the start anchor, the entry in the middle. */
  lemma IgnorePatternParts(l: IgnoreList, name: string, escape: string -> string)
    ensures var p := IgnorePattern(l, name, escape);
            var head := |AnchorStart(l)| + |CaseFlag(l)|;
            && |p| == head + |PatternBody(l, name, escape)| + |AnchorEnd(l)|
            && (l.wholeWord ==> p[0] == '^' && p[|p| - 1] == '$')
            && (!l.caseSensitive ==> p[|AnchorStart(l)|..head] == "(?i)")
            && p[head..|p| - |AnchorEnd(l)|] == PatternBody(l, name, escape)
  {
    var p := IgnorePattern(l, name, escape);
    var a, c, b, e := AnchorStart(l), CaseFlag(l), PatternBody(l, name, escape), AnchorEnd(l);
    assert p == a + c + b + e;
    assert p[|a|..|a| + |c|] == c;
    assert p[|a| + |c|..|p| - |e|] == b;
  }

  /** Different entries give different patterns, unless escaping merges them. */
  lemma IgnorePatternInjective(l: IgnoreList, x: string, y: string, escape: string -> string)
    requires x != y
    requires !l.regex ==> escape(x) != escape(y)
    ensures IgnorePattern(l, x, escape) != IgnorePattern(l, y, escape)
  {
    IgnorePatternParts(l, x, escape);
    IgnorePatternParts(l, y, escape);
  }

  /** The `map` and `collect` over the entries: stops at the first entry
      whose pattern does not compile. */
  function CompileEntries(l: IgnoreList, names: seq<string>, escape: string -> string, compiles: string -> bool)
    : (r: Result<seq<string>, ConfigError>)
    ensures r.Ok? <==> forall i :: 0 <= i < |names| ==> compiles(IgnorePattern(l, names[i], escape))
    ensures r.Ok? ==> |r.value| == |names|
                      && forall i :: 0 <= i < |names| ==> r.value[i] == IgnorePattern(l, names[i], escape)
    ensures r.Err? ==> exists k :: 0 <= k < |names|
                        && !compiles(IgnorePattern(l, names[k], escape))
                        && (forall j :: 0 <= j < k ==> compiles(IgnorePattern(l, names[j], escape)))
                        && r.error == InvalidRegex(IgnorePattern(l, names[k], escape))
  {
    if names == [] then Ok([])
    else
      var pattern := IgnorePattern(l, names[0], escape);
      if !compiles(pattern) then Err(InvalidRegex(pattern))
      else
        var rest :- CompileEntries(l, names[1..], escape, compiles);
        Ok([pattern] + rest)
  }

  function GetIgnoreList(ignoreList: Option<IgnoreList>, escape: string -> string, compiles: string -> bool)
    : (r: Result<Option<Filter>, ConfigError>)
    ensures ignoreList.None? ==> r == Ok(None)
    ensures ignoreList.Some? ==>
              var l := ignoreList.value;
              && (r.Ok? <==> forall i :: 0 <= i < |l.list| ==> compiles(IgnorePattern(l, l.list[i], escape)))
              && (r.Ok? ==> r.value.Some? && r.value.value.isListIgnored == l.isListIgnored
                            && |r.value.value.list| == |l.list|
                            && forall i :: 0 <= i < |l.list| ==>
                                 r.value.value.list[i] == IgnorePattern(l, l.list[i], escape))
              && (r.Err? ==> exists k :: 0 <= k < |l.list|
                               && !compiles(IgnorePattern(l, l.list[k], escape))
                               && (forall j :: 0 <= j < k ==> compiles(IgnorePattern(l, l.list[j], escape)))
                               && r.error == InvalidRegex(IgnorePattern(l, l.list[k], escape)))
  {
    match ignoreList
    case None => Ok(None)
    case Some(l) =>
      var list :- CompileEntries(l, l.list, escape, compiles);
      Ok(Some(Filter(list, l.isListIgnored)))
  }

  /** A whole-word, case-insensitive, literal "abc" becomes an anchored,
      case-insensitive match of the escaped text. */
  lemma IgnoreListExample(escape: string -> string, compiles: string -> bool)
    requires compiles("^(?i)" + escape("abc") + "$")
    ensures GetIgnoreList(Some(IgnoreList(["abc"], true, false, false, true)), escape, compiles)
            == Ok(Some(Filter(["^(?i)" + escape("abc") + "$"], true)))
  {
    var l := IgnoreList(["abc"], true, false, false, true);
    var p := IgnorePattern(l, "abc", escape);
    assert p == "^(?i)" + escape("abc") + "$";
    assert l.list[1..] == [];
    assert CompileEntries(l, l.list[1..], escape, compiles) == Ok([]);
    assert [p] + [] == [p];
    assert CompileEntries(l, l.list, escape, compiles) == Ok([p]);
  }

  // ---------------------------------------------------------------------
  // get_color_scheme

  predicate HasColours(config: ConfigV2) {
    config.colors.Some? && |config.colors.value| > 0
  }

  function GetColorScheme(config: ConfigV2, parseColourScheme: string -> Option<ColourScheme>)
    : (r: Result<ColourScheme, ConfigError>)
    ensures config.styleColor.None? ==> r == Ok(if HasColours(config) then Custom else Default)
    ensures config.styleColor.Some? ==>
              var name := config.styleColor.value;
              match parseColourScheme(name)
              case None => r == Err(InvalidColourScheme(name))
              case Some(Custom) => r == if HasColours(config) then Ok(Custom) else Err(EmptyCustomColours)
              case Some(scheme) => r == Ok(scheme)
  {
    match config.styleColor
    case Some(name) =>
      (match parseColourScheme(name)
       case Some(Custom) => if HasColours(config) then Ok(Custom) else Err(EmptyCustomColours)
       case Some(scheme) => Ok(scheme)
       case None => Err(InvalidColourScheme(name)))
    case None =>
      if HasColours(config) then Ok(Custom) else Ok(Default)
  }

  /** `Custom` is returned exactly when a non-empty colour table exists and
      no other scheme is named. */
  lemma CustomNeedsColours(config: ConfigV2, parseColourScheme: string -> Option<ColourScheme>)
    ensures GetColorScheme(config, parseColourScheme) == Ok(Custom) <==>
              HasColours(config)
              && (config.styleColor.None? || parseColourScheme(config.styleColor.value) == Some(Custom))
  {
  }

  // ---------------------------------------------------------------------
  // The process columns of `init_app`: `IndexSet::from_iter` keeps the
  // first occurrence of each column, in order; an empty list means none.

  predicate NoDuplicates(s: seq<ProcWidgetColumn>) {
    forall i, j :: 0 <= i < j < |s| ==> s[i] != s[j]
  }

  function InsertAll(acc: seq<ProcWidgetColumn>, s: seq<ProcWidgetColumn>): (r: seq<ProcWidgetColumn>)
    requires NoDuplicates(acc)
    ensures NoDuplicates(r)
    ensures acc <= r
    ensures forall x :: x in r <==> x in acc || x in s
    decreases |s|
  {
    if s == [] then acc
    else InsertAll(if s[0] in acc then acc else acc + [s[0]], s[1..])
  }

  /** The reference order of an index set: each column at its first
      occurrence, in input order. A column is kept only when no earlier
      position holds it. */
  function FirstOccurrences(s: seq<ProcWidgetColumn>): seq<ProcWidgetColumn> {
    if s == [] then []
    else
      var prefix := s[..|s| - 1];
      if s[|s| - 1] in prefix then FirstOccurrences(prefix) else FirstOccurrences(prefix) + [s[|s| - 1]]
  }

  lemma {:induction false} FirstOccurrencesOfDistinct(s: seq<ProcWidgetColumn>)
    requires NoDuplicates(s)
    ensures FirstOccurrences(s) == s
    decreases |s|
  {
    if s != [] {
      var prefix := s[..|s| - 1];
      assert s[|s| - 1] !in prefix by {
        forall i | 0 <= i < |prefix| ensures prefix[i] != s[|s| - 1] {
          assert prefix[i] == s[i];
        }
      }
      FirstOccurrencesOfDistinct(prefix);
      assert prefix + [s[|s| - 1]] == s;
    }
  }

  /** A repeat of a column that already occurred is dropped, wherever it stands. */
  lemma {:induction false} FirstOccurrencesDropsRepeat(
    x: seq<ProcWidgetColumn>, a: ProcWidgetColumn, y: seq<ProcWidgetColumn>)
    requires a in x
    ensures FirstOccurrences(x + [a] + y) == FirstOccurrences(x + y)
    decreases |y|
  {
    if y == [] {
      assert x + [a] + y == x + [a];
      assert (x + [a])[..|x + [a]| - 1] == x;
      assert x + y == x;
    } else {
      var b, y' := y[|y| - 1], y[..|y| - 1];
      var long, short := x + [a] + y, x + y;
      assert long[..|long| - 1] == x + [a] + y' && long[|long| - 1] == b;
      assert short[..|short| - 1] == x + y' && short[|short| - 1] == b;
      assert b in x + [a] + y' <==> b in x + y';
      FirstOccurrencesDropsRepeat(x, a, y');
    }
  }

  lemma NoDuplicatesSnoc(acc: seq<ProcWidgetColumn>, x: ProcWidgetColumn)
    requires NoDuplicates(acc) && x !in acc
    ensures NoDuplicates(acc + [x])
  {
    var r := acc + [x];
    forall i, j | 0 <= i < j < |r| ensures r[i] != r[j] {
      assert r[i] == acc[i];
      if j == |acc| {
        assert r[i] in acc;
      } else {
        assert r[j] == acc[j];
      }
    }
  }

  /** Inserting into an index set in order gives the first occurrences of
      the whole sequence. */
  lemma {:induction false} InsertAllIsFirstOccurrences(acc: seq<ProcWidgetColumn>, s: seq<ProcWidgetColumn>)
    requires NoDuplicates(acc)
    ensures InsertAll(acc, s) == FirstOccurrences(acc + s)
    decreases |s|
  {
    if s == [] {
      FirstOccurrencesOfDistinct(acc);
      assert acc + s == acc;
    } else {
      assert acc + s == acc + [s[0]] + s[1..];
      if s[0] in acc {
        InsertAllIsFirstOccurrences(acc, s[1..]);
        FirstOccurrencesDropsRepeat(acc, s[0], s[1..]);
      } else {
        NoDuplicatesSnoc(acc, s[0]);
        InsertAllIsFirstOccurrences(acc + [s[0]], s[1..]);
      }
    }
  }

  function IndexSetFromIter(s: seq<ProcWidgetColumn>): (r: seq<ProcWidgetColumn>)
    ensures NoDuplicates(r)
    ensures forall x :: x in r <==> x in s
    ensures r == FirstOccurrences(s)
  {
    InsertAllIsFirstOccurrences([], s);
    assert [] + s == s;
    InsertAll([], s)
  }

  /** A list without repeats is kept as it is. */
  lemma {:induction false} InsertAllDistinct(acc: seq<ProcWidgetColumn>, s: seq<ProcWidgetColumn>)
    requires NoDuplicates(acc) && NoDuplicates(acc + s)
    ensures InsertAll(acc, s) == acc + s
    decreases |s|
  {
    if s != [] {
      assert s[0] == (acc + s)[|acc|];
      assert s[0] !in acc by {
        forall i | 0 <= i < |acc| ensures acc[i] != s[0] {
          assert acc[i] == (acc + s)[i];
        }
      }
      assert acc + s == (acc + [s[0]]) + s[1..];
      InsertAllDistinct(acc + [s[0]], s[1..]);
    }
  }

  function ProcColumns(columns: Option<seq<ProcWidgetColumn>>): (r: Option<seq<ProcWidgetColumn>>)
    ensures r.Some? <==> columns.Some? && |columns.value| > 0
    ensures r.Some? ==> NoDuplicates(r.value) && forall c :: c in r.value <==> c in columns.value
    ensures r.Some? ==> r.value == FirstOccurrences(columns.value)
  {
    match columns
    case Some(cs) => if |cs| == 0 then None else Some(IndexSetFromIter(cs))
    case None => None
  }

  /** A repeated column keeps its first place: `cpu, pid, cpu, mem` gives `cpu, pid, mem`. */
  lemma ProcColumnsExample()
    ensures ProcColumns(Some(["cpu", "pid", "cpu", "mem"])) == Some(["cpu", "pid", "mem"])
  {
    var c, p, m: ProcWidgetColumn := "cpu", "pid", "mem";
    assert c != p && c != m && p != m;
    assert [c][..0] == [] && [c, p][..1] == [c] && [c, p, c][..2] == [c, p] && [c, p, c, m][..3] == [c, p, c];
    assert FirstOccurrences([c]) == [c];
    assert FirstOccurrences([c, p]) == [c, p];
    assert FirstOccurrences([c, p, c]) == [c, p];
    assert FirstOccurrences([c, p, c, m]) == [c, p, m];
  }

  lemma ProcColumnsDistinct(columns: seq<ProcWidgetColumn>)
    requires |columns| > 0 && NoDuplicates(columns)
    ensures ProcColumns(Some(columns)) == Some(columns)
  {
    InsertAllDistinct([], columns);
    assert [] + columns == columns;
  }
}
