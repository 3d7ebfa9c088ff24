/** The data the start-up code of `src/options.rs` works on: the merged
    configuration record (`ConfigV2`, already deserialised from the command
    line and the TOML file), the error type, the widget tags and the
    resolved layout tree, and the foreign routines it calls. */
module Config {
  import opened Results

  const U64_LIMIT: nat := 0x1_0000_0000_0000_0000
  const U32_LIMIT: nat := 0x1_0000_0000

  type u64 = x: nat | x < U64_LIMIT
  type u32 = x: nat | x < U32_LIMIT

  /** Reserved id of the widget selected when nothing else is, and the
      default id in basic mode (`DEFAULT_WIDGET_ID` of the constants module). */
  const DEFAULT_WIDGET_ID: u64 := 56709
  /** Id of the tabbed table container of basic mode. */
  const BASIC_TABLE_WIDGET_ID: u64 := 100

  /** Every start-up failure of this code. The variants stand for the
      `BottomError::ConfigError` messages (with the values they mention), for
      the errors passed on from foreign code, and for anyhow's `context`. */
  datatype ConfigError =
    | Parse                               // not a human time and not a u64
    | DurationOverflow                    // human time does not fit in a u64 of ms
    | BelowMin(what: string, min: u64)    // "set your ... to be at least ... ms."
    | AboveMax(what: string, max: u64)    // "set your ... to be less than ... ms."
    | InvalidTemperatureType(given: string)
    | InvalidWidgetType(given: string)
    | DefaultCountWithoutType
    | EmptyLayout
    | InvalidRegex(pattern: string)
    | InvalidColourScheme(given: string)
    | EmptyCustomColours
    | LayoutConversion(detail: string)    // an error of the row converter
    | MissingInitialWidget(id: u64)       // `widget_map.get(..).unwrap()` panics
    | Context(hint: string, inner: ConfigError)

  /** A duration option: a free-text or a numeric value. */
  datatype StringOrNum = Str(s: string) | Num(n: u64)

  /** Widget tags; the ones without a state of their own are the
      auxiliary tags of the process and CPU widgets and of basic mode. */
  datatype BottomWidgetType =
    | Empty | Cpu | CpuLegend | Mem | Net | Proc | ProcSearch | ProcSort
    | Temp | Disk | BasicCpu | BasicMem | BasicNet | BasicTables | Battery

  datatype TemperatureType = Celsius | Kelvin | Fahrenheit

  /** The built-in palettes are not distinguished; `Named` stands for any of them. */
  datatype ColourScheme = Default | Custom | Named(name: string)

  datatype CpuDefault = All | Average

  /** The resolved layout: rows of columns of column rows of widgets. */
  datatype BottomWidget = BottomWidget(widgetType: BottomWidgetType, widgetId: u64)
  datatype BottomColRow = BottomColRow(children: seq<BottomWidget>)
  datatype BottomCol = BottomCol(children: seq<BottomColRow>)
  datatype BottomRow = BottomRow(children: seq<BottomCol>)
  datatype BottomLayout = BottomLayout(rows: seq<BottomRow>, totalRowHeightRatio: nat)

  /** The user's `[[row]]` tables, before conversion. */
  datatype FinalWidget = FinalWidget(ratio: Option<u32>, widgetType: string, default: Option<bool>)
  datatype RowChildren = Widget(widget: FinalWidget) | Carry(ratio: Option<u32>, child: seq<FinalWidget>)
  datatype Row = Row(ratio: Option<u32>, child: Option<seq<RowChildren>>)

  /** The counters `get_widget_layout` lends to the row converter by `&mut`. */
  datatype LayoutCounters = LayoutCounters(
    iterId: nat, totalHeightRatio: nat, defaultWidgetId: u64, defaultWidgetCount: u64)

  /** An ignore list as written in the configuration. */
  datatype IgnoreList = IgnoreList(
    list: seq<string>, isListIgnored: bool, regex: bool, caseSensitive: bool, wholeWord: bool)

  datatype GeneralArgs = GeneralArgs(
    rate: Option<StringOrNum>,
    defaultTimeValue: Option<StringOrNum>,
    timeDelta: Option<StringOrNum>,
    retention: Option<StringOrNum>,
    autohideTime: Option<bool>,
    basic: Option<bool>,
    expanded: Option<bool>,
    dotMarker: Option<bool>,
    hideTime: Option<bool>,
    hideTableGap: Option<bool>,
    disableClick: Option<bool>,
    showTableScrollPosition: Option<bool>,
    defaultWidgetType: Option<string>,
    defaultWidgetCount: Option<u32>)

  datatype ProcessArgs = ProcessArgs(
    groupProcesses: Option<bool>,
    caseSensitive: Option<bool>,
    wholeWord: Option<bool>,
    regex: Option<bool>,
    memAsValue: Option<bool>,
    tree: Option<bool>,
    processCommand: Option<bool>,
    disableAdvancedKill: Option<bool>,
    currentUsage: Option<bool>,
    unnormalizedCpu: Option<bool>)

  /** A process table column, by its configuration name. */
  type ProcWidgetColumn = string

  datatype ProcessConfig = ProcessConfig(args: ProcessArgs, columns: Option<seq<ProcWidgetColumn>>)

  datatype CpuArgs = CpuArgs(hideAvgCpu: Option<bool>, leftLegend: Option<bool>, defaultCpuEntry: CpuDefault)

  datatype NetworkArgs = NetworkArgs(
    networkUseBytes: Option<bool>,
    networkUseLog: Option<bool>,
    networkUseBinaryPrefix: Option<bool>,
    useOldNetworkLegend: Option<bool>)

  datatype TemperatureArgs = TemperatureArgs(celsius: bool, fahrenheit: bool, kelvin: bool)
  datatype TemperatureConfig = TemperatureConfig(args: TemperatureArgs, temperatureType: Option<string>)

  /** The merged configuration, one field per section that this code reads. */
  datatype ConfigV2 = ConfigV2(
    general: GeneralArgs,
    process: ProcessConfig,
    cpu: CpuArgs,
    network: NetworkArgs,
    temperature: TemperatureConfig,
    enableCacheMemory: Option<bool>,     // [memory] enable_cache_memory
    styleColor: Option<string>,          // [style] color
    colors: Option<map<string, string>>, // [colors] table
    gpuEnabled: bool,                    // config.gpu.enabled()
    diskFilter: Option<IgnoreList>,
    mountFilter: Option<IgnoreList>,
    tempFilter: Option<IgnoreList>,
    netFilter: Option<IgnoreList>,
    row: Option<seq<Row>>)

  /** Facts about the build and the machine, given as inputs. */
  datatype Platform = Platform(
    isWindows: bool,   // cfg(target_os = "windows")
    gpuFeature: bool,  // cfg(feature = "gpu")
    useBattery: bool)  // get_use_battery(config)

  /** Foreign code, given as parameters: humantime's parser (in ms), regex
      escaping, whether `Regex::new` accepts a pattern, the `FromStr` parsers
      of widget types and colour schemes, the row converter of the layout
      manager, and the built-in layouts. */
  datatype Collaborators = Collaborators(
    parseDuration: string -> Option<nat>,
    escape: string -> string,
    compiles: string -> bool,
    parseWidgetType: string -> Option<BottomWidgetType>,
    parseColourScheme: string -> Option<ColourScheme>,
    convertRow: (Row, Option<BottomWidgetType>, bool, LayoutCounters)
                  -> Result<(BottomRow, LayoutCounters), ConfigError>,
    basicLayout: bool -> BottomLayout,
    defaultRows: bool -> seq<Row>)
}
