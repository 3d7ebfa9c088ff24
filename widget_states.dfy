/** The values `init_app` builds for the rest of the program: the global
    configuration fields, the process table settings and mode, and one
    state record per widget kind. A state record keeps the arguments its
    constructor is given; the drawing style passed to some of them is
    not modelled. */
module WidgetStates {
  import opened Results
  import opened Config

  datatype DataUnit = Byte | Bit
  datatype AxisScaling = Log | Linear

  datatype AppConfigFields = AppConfigFields(
    updateRate: u64,
    temperatureType: TemperatureType,
    showAverageCpu: bool,
    useDot: bool,
    leftLegend: bool,
    useCurrentCpuTotal: bool,
    unnormalizedCpu: bool,
    useBasicMode: bool,
    defaultTimeValue: u64,
    timeInterval: u64,
    hideTime: bool,
    autohideTime: bool,
    useOldNetworkLegend: bool,
    tableGap: nat,
    disableClick: bool,
    enableCacheMemory: bool,
    showTableScrollPosition: bool,
    isAdvancedKill: bool,
    networkScaleType: AxisScaling,
    networkUnitType: DataUnit,
    networkUseBinaryPrefix: bool,
    retentionMs: u64)

  /** Settings shared by every process widget of one run. */
  datatype ProcTableConfig = ProcTableConfig(
    isCaseSensitive: bool, isMatchWholeWord: bool, isUseRegex: bool,
    showMemoryAsValues: bool, isCommand: bool)

  type Pid = int

  datatype ProcWidgetMode = Normal | Grouped | Tree(collapsedPids: set<Pid>)

  /** `autohideTimer` says whether a timer was started (`Some(Instant::now())`). */
  datatype CpuWidgetState = CpuWidgetState(
    fields: AppConfigFields, defaultCpuEntry: CpuDefault, defaultTimeValue: u64, autohideTimer: bool)
  datatype MemWidgetState = MemWidgetState(defaultTimeValue: u64, autohideTimer: bool)
  datatype NetWidgetState = NetWidgetState(defaultTimeValue: u64, autohideTimer: bool)
  datatype ProcWidgetState = ProcWidgetState(
    fields: AppConfigFields, mode: ProcWidgetMode, tableConfig: ProcTableConfig,
    columns: Option<seq<ProcWidgetColumn>>)
  datatype DiskTableWidget = DiskTableWidget(fields: AppConfigFields)
  datatype TempWidgetState = TempWidgetState(fields: AppConfigFields)
  datatype BatteryWidgetState = BatteryWidgetState

  /** Grouping wins over tree mode; a tree starts with nothing collapsed. */
  function ProcMode(isGrouped: bool, isDefaultTree: bool): (m: ProcWidgetMode)
    ensures m.Grouped? <==> isGrouped
    ensures m.Tree? <==> !isGrouped && isDefaultTree
    ensures m.Tree? ==> m.collapsedPids == {}
  {
    if isGrouped then Grouped
    else if isDefaultTree then Tree({})
    else Normal
  }

  /** The tabbed container of basic mode; the click regions are filled in
      later by the renderer. */
  datatype BasicTableWidgetState = BasicTableWidgetState(
    currentlyDisplayedWidgetType: BottomWidgetType,
    currentlyDisplayedWidgetId: u64,
    widgetId: u64,
    leftTlc: Option<(nat, nat)>,
    leftBrc: Option<(nat, nat)>,
    rightTlc: Option<(nat, nat)>,
    rightBrc: Option<(nat, nat)>)

  predicate IsTableType(t: BottomWidgetType) {
    t == Proc || t == Disk || t == Temp
  }

  function BasicTableState(useBasicMode: bool, initialType: BottomWidgetType, initialId: u64)
    : (r: Option<BasicTableWidgetState>)
    ensures r.Some? <==> useBasicMode
    ensures r.Some? ==>
              && r.value.widgetId == BASIC_TABLE_WIDGET_ID
              && IsTableType(r.value.currentlyDisplayedWidgetType)
              && r.value.leftTlc.None? && r.value.leftBrc.None?
              && r.value.rightTlc.None? && r.value.rightBrc.None?
              && (if IsTableType(initialType)
                  then r.value.currentlyDisplayedWidgetType == initialType
                       && r.value.currentlyDisplayedWidgetId == initialId
                  else r.value.currentlyDisplayedWidgetType == Proc
                       && r.value.currentlyDisplayedWidgetId == DEFAULT_WIDGET_ID)
  {
    if !useBasicMode then None
    else if IsTableType(initialType) then
      Some(BasicTableWidgetState(initialType, initialId, BASIC_TABLE_WIDGET_ID, None, None, None, None))
    else
      Some(BasicTableWidgetState(Proc, DEFAULT_WIDGET_ID, BASIC_TABLE_WIDGET_ID, None, None, None, None))
  }

  /** Which data families the collectors must poll. */
  datatype UsedWidgets = UsedWidgets(
    useCpu: bool, useMem: bool, useCache: bool, useGpu: bool, useNet: bool,
    useProc: bool, useDisk: bool, useTemp: bool, useBattery: bool)

  function UsedWidgetsOf(used: set<BottomWidgetType>, enableCacheMemory: bool, gpuEnabled: bool)
    : (u: UsedWidgets)
    ensures u.useCpu <==> Cpu in used || BasicCpu in used
    ensures u.useMem <==> Mem in used || BasicMem in used
    ensures u.useNet <==> Net in used || BasicNet in used
    ensures u.useCache <==> u.useMem && enableCacheMemory
    ensures u.useGpu == gpuEnabled
    ensures u.useProc == (Proc in used) && u.useDisk == (Disk in used)
    ensures u.useTemp == (Temp in used) && u.useBattery == (Battery in used)
  {
    var useMem := Mem in used || BasicMem in used;
    UsedWidgets(
      useCpu := Cpu in used || BasicCpu in used,
      useMem := useMem,
      useCache := useMem && enableCacheMemory,
      useGpu := gpuEnabled,
      useNet := Net in used || BasicNet in used,
      useProc := Proc in used,
      useDisk := Disk in used,
      useTemp := Temp in used,
      useBattery := Battery in used)
  }
}
