/** `init_app` of `src/options.rs`: validates the durations and the
    temperature unit, builds the global configuration fields, walks the
    resolved layout to build the per-widget tables, derives the basic-mode
    table container and the used data families, compiles the four filters
    and picks the widget that has focus at start-up. */
module AppInit {
  import opened Results
  import opened Config
  import opened Durations
  import opened Validators
  import opened WidgetStates
  import opened WidgetWalk

  const RETENTION_HINT: string := "Update `retention` in your config file."
  const DISK_FILTER_HINT: string := "Update 'disk_filter' in your config file"
  const MOUNT_FILTER_HINT: string := "Update 'mount_filter' in your config file"
  const TEMP_FILTER_HINT: string := "Update 'temp_filter' in your config file"
  const NET_FILTER_HINT: string := "Update 'net_filter' in your config file"

  datatype AppWidgetStates = AppWidgetStates(
    cpuState: map<u64, CpuWidgetState>,
    memState: map<u64, MemWidgetState>,
    netState: map<u64, NetWidgetState>,
    procState: map<u64, ProcWidgetState>,
    tempState: map<u64, TempWidgetState>,
    diskState: map<u64, DiskTableWidget>,
    batteryState: map<u64, BatteryWidgetState>,
    basicTableWidgetState: Option<BasicTableWidgetState>)

  datatype DataFilters = DataFilters(
    diskFilter: Option<Filter>, mountFilter: Option<Filter>,
    tempFilter: Option<Filter>, netFilter: Option<Filter>)

  /** The arguments `App::new` is given. */
  datatype App = App(
    appConfigFields: AppConfigFields,
    states: AppWidgetStates,
    widgetMap: map<u64, BottomWidget>,
    currentWidget: BottomWidget,
    usedWidgets: UsedWidgets,
    filters: DataFilters,
    isExpanded: bool)

  /** The `AppConfigFields` literal, from the values validated before it. */
  function MakeConfigFields(
    config: ConfigV2, platform: Platform, updateRate: u64, temperatureType: TemperatureType,
    defaultTimeValue: u64, timeInterval: u64, retentionMs: u64): AppConfigFields
  {
    AppConfigFields(
      updateRate := updateRate,
      temperatureType := temperatureType,
      showAverageCpu := !config.cpu.hideAvgCpu.UnwrapOr(false),
      useDot := config.general.dotMarker.UnwrapOr(false),
      leftLegend := config.cpu.leftLegend.UnwrapOr(false),
      useCurrentCpuTotal := config.process.args.currentUsage.UnwrapOr(false),
      unnormalizedCpu := config.process.args.unnormalizedCpu.UnwrapOr(false),
      useBasicMode := config.general.basic.UnwrapOr(false),
      defaultTimeValue := defaultTimeValue,
      timeInterval := timeInterval,
      hideTime := config.general.hideTime.UnwrapOr(false),
      autohideTime := config.general.autohideTime.UnwrapOr(false),
      useOldNetworkLegend := config.network.useOldNetworkLegend.UnwrapOr(false),
      tableGap := if config.general.hideTableGap.UnwrapOr(false) then 0 else 1,
      disableClick := config.general.disableClick.UnwrapOr(false),
      enableCacheMemory := GetEnableCacheMemory(config, platform),
      showTableScrollPosition := config.general.showTableScrollPosition.UnwrapOr(false),
      isAdvancedKill := !config.process.args.disableAdvancedKill.UnwrapOr(false),
      networkScaleType := if config.network.networkUseLog.UnwrapOr(false) then Log else Linear,
      networkUnitType := if config.network.networkUseBytes.UnwrapOr(false) then Byte else Bit,
      networkUseBinaryPrefix := config.network.networkUseBinaryPrefix.UnwrapOr(false),
      retentionMs := retentionMs)
  }

  function TableConfigOf(config: ConfigV2): ProcTableConfig {
    var args := config.process.args;
    ProcTableConfig(
      isCaseSensitive := args.caseSensitive.UnwrapOr(false),
      isMatchWholeWord := args.wholeWord.UnwrapOr(false),
      isUseRegex := args.regex.UnwrapOr(false),
      showMemoryAsValues := args.memAsValue.UnwrapOr(false),
      isCommand := args.processCommand.UnwrapOr(false))
  }

  function SelectionOf(config: ConfigV2, defaultWidgetId: u64, defaultWidgetType: Option<BottomWidgetType>)
    : Selection
  {
    Selection(defaultWidgetId, defaultWidgetType, config.row.Some?, config.general.basic.UnwrapOr(false))
  }

  function WalkParamsOf(
    config: ConfigV2, fields: AppConfigFields, defaultWidgetId: u64,
    defaultWidgetType: Option<BottomWidgetType>): WalkParams
  {
    WalkParams(
      selection := SelectionOf(config, defaultWidgetId, defaultWidgetType),
      fields := fields,
      defaultCpuEntry := config.cpu.defaultCpuEntry,
      autohideTimer := config.general.autohideTime.UnwrapOr(false),
      isGrouped := config.process.args.groupProcesses.UnwrapOr(false),
      isDefaultTree := config.process.args.tree.UnwrapOr(false),
      tableConfig := TableConfigOf(config),
      procColumns := ProcColumns(config.process.columns))
  }

  /** The validated durations and temperature unit, in the order `init_app`
      meets them, and the configuration fields built from them. */
  function ValidatedFields(config: ConfigV2, platform: Platform, parseDuration: string -> Option<nat>)
    : (r: Result<AppConfigFields, ConfigError>)
    ensures GetRetention(config, parseDuration).Err? ==>
              r == Err(Context(RETENTION_HINT, GetRetention(config, parseDuration).error))
    ensures r.Ok? ==> var f := r.value;
              && GetRetention(config, parseDuration) == Ok(f.retentionMs)
              && f.updateRate >= MIN_UPDATE_RATE
              && (config.general.defaultTimeValue.Some? ==>
                    MIN_DEFAULT_TIME_VALUE <= f.defaultTimeValue <= f.retentionMs)
              && (config.general.defaultTimeValue.None? ==> f.defaultTimeValue == DEFAULT_TIME_MILLISECONDS)
              && (config.general.timeDelta.Some? ==> MIN_TIME_DELTA <= f.timeInterval <= f.retentionMs)
              && (config.general.timeDelta.None? ==> f.timeInterval == TIME_CHANGE_MILLISECONDS)
              && GetTemperature(config) == Ok(f.temperatureType)
    ensures var ret := GetRetention(config, parseDuration);
            ret.Ok? ==>
              var window := GetDefaultTimeValue(config, ret.value, parseDuration);
              var rate := GetUpdateRate(config, parseDuration);
              var temperature := GetTemperature(config);
              var step := GetTimeInterval(config, ret.value, parseDuration);
              && (window.Err? ==> r == Err(window.error))
              && (window.Ok? && rate.Err? ==> r == Err(rate.error))
              && (window.Ok? && rate.Ok? && temperature.Err? ==> r == Err(temperature.error))
              && (window.Ok? && rate.Ok? && temperature.Ok? && step.Err? ==> r == Err(step.error))
              && (r.Ok? ==> && r.value.defaultTimeValue == window.value
                            && r.value.updateRate == rate.value
                            && r.value.temperatureType == temperature.value
                            && r.value.timeInterval == step.value)
    ensures r.Err? ==> r.error.Context? || r.error.Parse? || r.error.DurationOverflow? || r.error.BelowMin?
                       || r.error.AboveMax? || r.error.InvalidTemperatureType?
    ensures r.Ok? <==>
              && GetRetention(config, parseDuration).Ok?
              && GetDefaultTimeValue(config, GetRetention(config, parseDuration).value, parseDuration).Ok?
              && GetUpdateRate(config, parseDuration).Ok?
              && GetTemperature(config).Ok?
              && GetTimeInterval(config, GetRetention(config, parseDuration).value, parseDuration).Ok?
  {
    var retentionMs :- GetRetention(config, parseDuration).MapErr(e => Context(RETENTION_HINT, e));
    var defaultTimeValue :- GetDefaultTimeValue(config, retentionMs, parseDuration);
    var updateRate :- GetUpdateRate(config, parseDuration);
    var temperatureType :- GetTemperature(config);
    var timeInterval :- GetTimeInterval(config, retentionMs, parseDuration);
    Ok(MakeConfigFields(config, platform, updateRate, temperatureType, defaultTimeValue, timeInterval, retentionMs))
  }

  /** The four filters, compiled in order; the first bad one is reported
      with the hint naming its table. */
  function CompileFilters(config: ConfigV2, escape: string -> string, compiles: string -> bool)
    : (r: Result<DataFilters, ConfigError>)
    ensures var disk, mount, temp, net :=
              GetIgnoreList(config.diskFilter, escape, compiles), GetIgnoreList(config.mountFilter, escape, compiles),
              GetIgnoreList(config.tempFilter, escape, compiles), GetIgnoreList(config.netFilter, escape, compiles);
            && (r.Ok? <==> disk.Ok? && mount.Ok? && temp.Ok? && net.Ok?)
            && (r.Ok? ==> r.value == DataFilters(disk.value, mount.value, temp.value, net.value))
            && (disk.Err? ==> r == Err(Context(DISK_FILTER_HINT, disk.error)))
            && (disk.Ok? && mount.Err? ==> r == Err(Context(MOUNT_FILTER_HINT, mount.error)))
            && (disk.Ok? && mount.Ok? && temp.Err? ==> r == Err(Context(TEMP_FILTER_HINT, temp.error)))
            && (disk.Ok? && mount.Ok? && temp.Ok? && net.Err? ==> r == Err(Context(NET_FILTER_HINT, net.error)))
  {
    var disk :- GetIgnoreList(config.diskFilter, escape, compiles).MapErr(e => Context(DISK_FILTER_HINT, e));
    var mount :- GetIgnoreList(config.mountFilter, escape, compiles).MapErr(e => Context(MOUNT_FILTER_HINT, e));
    var temp :- GetIgnoreList(config.tempFilter, escape, compiles).MapErr(e => Context(TEMP_FILTER_HINT, e));
    var net :- GetIgnoreList(config.netFilter, escape, compiles).MapErr(e => Context(NET_FILTER_HINT, e));
    Ok(DataFilters(disk, mount, temp, net))
  }

  /** What is assembled once the walk and the filters are done; the
      `unwrap` of the initial widget's lookup is the `MissingInitialWidget` error. */
  function Assemble(
    config: ConfigV2, platform: Platform, fields: AppConfigFields, t: WidgetTables, filters: DataFilters)
    : Result<App, ConfigError>
  {
    if t.initialWidgetId !in t.widgetMap then Err(MissingInitialWidget(t.initialWidgetId))
    else
      var states := AppWidgetStates(
        t.cpuStates, t.memStates, t.netStates, t.procStates, t.tempStates, t.diskStates, t.batteryStates,
        BasicTableState(fields.useBasicMode, t.initialWidgetType, t.initialWidgetId));
      var used := UsedWidgetsOf(t.usedWidgetSet, GetEnableCacheMemory(config, platform),
                                platform.gpuFeature && config.gpuEnabled);
      Ok(App(fields, states, t.widgetMap, t.widgetMap[t.initialWidgetId], used, filters,
             config.general.expanded.UnwrapOr(false) && !config.general.basic.UnwrapOr(false)))
  }

  /** The tables the walk builds for a given set of configuration fields. */
  function WalkTables(
    config: ConfigV2, layout: BottomLayout, fields: AppConfigFields, defaultWidgetId: u64,
    defaultWidgetType: Option<BottomWidgetType>): WidgetTables
  {
    TablesAfter(LayoutWidgets(layout), WalkParamsOf(config, fields, defaultWidgetId, defaultWidgetType))
  }

  /** `init_app` as one expression. The walk raises no error, so it can be
      placed after the validation of the fields and before the filters. */
  function InitAppSpec(
    config: ConfigV2, layout: BottomLayout, defaultWidgetId: u64,
    defaultWidgetType: Option<BottomWidgetType>, platform: Platform, ext: Collaborators)
    : Result<App, ConfigError>
  {
    var fields :- ValidatedFields(config, platform, ext.parseDuration);
    var t := WalkTables(config, layout, fields, defaultWidgetId, defaultWidgetType);
    var filters :- CompileFilters(config, ext.escape, ext.compiles);
    Assemble(config, platform, fields, t, filters)
  }

  method InitApp(
    config: ConfigV2, layout: BottomLayout, defaultWidgetId: u64,
    defaultWidgetType: Option<BottomWidgetType>, platform: Platform, ext: Collaborators)
    returns (r: Result<App, ConfigError>)
    ensures r == InitAppSpec(config, layout, defaultWidgetId, defaultWidgetType, platform, ext)
  {
    var retentionMs :- GetRetention(config, ext.parseDuration).MapErr(e => Context(RETENTION_HINT, e));
    var defaultTimeValue :- GetDefaultTimeValue(config, retentionMs, ext.parseDuration);
    var updateRate :- GetUpdateRate(config, ext.parseDuration);
    var temperatureType :- GetTemperature(config);
    var timeInterval :- GetTimeInterval(config, retentionMs, ext.parseDuration);
    var fields := MakeConfigFields(config, platform, updateRate, temperatureType,
                                   defaultTimeValue, timeInterval, retentionMs);

    var t := CollectWidgets(layout, WalkParamsOf(config, fields, defaultWidgetId, defaultWidgetType));

    var disk :- GetIgnoreList(config.diskFilter, ext.escape, ext.compiles).MapErr(e => Context(DISK_FILTER_HINT, e));
    var mount :- GetIgnoreList(config.mountFilter, ext.escape, ext.compiles).MapErr(e => Context(MOUNT_FILTER_HINT, e));
    var temp :- GetIgnoreList(config.tempFilter, ext.escape, ext.compiles).MapErr(e => Context(TEMP_FILTER_HINT, e));
    var net :- GetIgnoreList(config.netFilter, ext.escape, ext.compiles).MapErr(e => Context(NET_FILTER_HINT, e));

    if t.initialWidgetId !in t.widgetMap {
      return Err(MissingInitialWidget(t.initialWidgetId));
    }
    var basicTable := BasicTableState(fields.useBasicMode, t.initialWidgetType, t.initialWidgetId);
    var states := AppWidgetStates(
      t.cpuStates, t.memStates, t.netStates, t.procStates, t.tempStates, t.diskStates, t.batteryStates, basicTable);
    var used := UsedWidgetsOf(t.usedWidgetSet, GetEnableCacheMemory(config, platform),
                              platform.gpuFeature && config.gpuEnabled);
    var currentWidget := t.widgetMap[t.initialWidgetId];
    var isExpanded := config.general.expanded.UnwrapOr(false) && !config.general.basic.UnwrapOr(false);
    r := Ok(App(fields, states, t.widgetMap, currentWidget, used, DataFilters(disk, mount, temp, net), isExpanded));
  }

  // ---------------------------------------------------------------------
  // Properties of a successful start-up

  /** The stages of a successful start-up, named for the lemmas below. */
  lemma InitAppStages(
    config: ConfigV2, layout: BottomLayout, defaultWidgetId: u64,
    defaultWidgetType: Option<BottomWidgetType>, platform: Platform, ext: Collaborators)
    ensures var r := InitAppSpec(config, layout, defaultWidgetId, defaultWidgetType, platform, ext);
            r.Ok? ==>
            var a := r.value;
            var fields := ValidatedFields(config, platform, ext.parseDuration);
            var t := WalkTables(config, layout, a.appConfigFields, defaultWidgetId, defaultWidgetType);
            && fields == Ok(a.appConfigFields)
            && CompileFilters(config, ext.escape, ext.compiles) == Ok(a.filters)
            && t.initialWidgetId in t.widgetMap
            && a.widgetMap == t.widgetMap
            && a.currentWidget == t.widgetMap[t.initialWidgetId]
            && a.states == AppWidgetStates(
                 t.cpuStates, t.memStates, t.netStates, t.procStates, t.tempStates, t.diskStates, t.batteryStates,
                 BasicTableState(a.appConfigFields.useBasicMode, t.initialWidgetType, t.initialWidgetId))
            && a.usedWidgets == UsedWidgetsOf(t.usedWidgetSet, GetEnableCacheMemory(config, platform),
                                              platform.gpuFeature && config.gpuEnabled)
            && a.isExpanded == (config.general.expanded.UnwrapOr(false) && !config.general.basic.UnwrapOr(false))
  {
  }

  /** The accepted durations keep their bounds, and the window and the step
      never exceed the retention once they were given explicitly. */
  lemma InitAppDurations(
    config: ConfigV2, layout: BottomLayout, defaultWidgetId: u64,
    defaultWidgetType: Option<BottomWidgetType>, platform: Platform, ext: Collaborators)
    ensures var r := InitAppSpec(config, layout, defaultWidgetId, defaultWidgetType, platform, ext);
            r.Ok? ==> var f := r.value.appConfigFields;
              && f.updateRate >= MIN_UPDATE_RATE
              && (config.general.defaultTimeValue.Some? ==>
                    MIN_DEFAULT_TIME_VALUE <= f.defaultTimeValue <= f.retentionMs)
              && (config.general.timeDelta.Some? ==> MIN_TIME_DELTA <= f.timeInterval <= f.retentionMs)
              && (config.general.retention.None? ==> f.retentionMs == DEFAULT_RETENTION_MS)
              && f.useBasicMode == config.general.basic.UnwrapOr(false)
              && f.tableGap == (if config.general.hideTableGap == Some(true) then 0 else 1)
  {
    var r := InitAppSpec(config, layout, defaultWidgetId, defaultWidgetType, platform, ext);
    if r.Ok? {
      InitAppStages(config, layout, defaultWidgetId, defaultWidgetType, platform, ext);
    }
  }

  /** The app starts expanded only when asked to and not in basic mode. */
  lemma InitAppExpanded(
    config: ConfigV2, layout: BottomLayout, defaultWidgetId: u64,
    defaultWidgetType: Option<BottomWidgetType>, platform: Platform, ext: Collaborators)
    ensures var r := InitAppSpec(config, layout, defaultWidgetId, defaultWidgetType, platform, ext);
            r.Ok? ==> (r.value.isExpanded <==>
                         config.general.expanded == Some(true) && config.general.basic != Some(true))
  {
    var r := InitAppSpec(config, layout, defaultWidgetId, defaultWidgetType, platform, ext);
    if r.Ok? {
      InitAppStages(config, layout, defaultWidgetId, defaultWidgetType, platform, ext);
    }
  }

  /** The focused widget is a widget of the layout, found under its own id. */
  lemma InitAppCurrentWidget(
    config: ConfigV2, layout: BottomLayout, defaultWidgetId: u64,
    defaultWidgetType: Option<BottomWidgetType>, platform: Platform, ext: Collaborators)
    ensures var r, ws := InitAppSpec(config, layout, defaultWidgetId, defaultWidgetType, platform, ext),
                         LayoutWidgets(layout);
            r.Ok? ==>
              && (exists i :: 0 <= i < |ws| && ws[i] == r.value.currentWidget)
              && r.value.currentWidget.widgetId in r.value.widgetMap
              && r.value.widgetMap[r.value.currentWidget.widgetId] == r.value.currentWidget
  {
    var r := InitAppSpec(config, layout, defaultWidgetId, defaultWidgetType, platform, ext);
    if r.Ok? {
      InitAppStages(config, layout, defaultWidgetId, defaultWidgetType, platform, ext);
      InitialWidgetFound(LayoutWidgets(layout), SelectionOf(config, defaultWidgetId, defaultWidgetType));
    }
  }

  /** The focused widget has the id of the last widget the default type
      selects (`LastSelectedIndex`), or the given default id when none is
      selected. */
  lemma InitAppInitialSelection(
    config: ConfigV2, layout: BottomLayout, defaultWidgetId: u64,
    defaultWidgetType: Option<BottomWidgetType>, platform: Platform, ext: Collaborators)
    ensures var r, ws := InitAppSpec(config, layout, defaultWidgetId, defaultWidgetType, platform, ext),
                         LayoutWidgets(layout);
            r.Ok? ==>
              var k := LastSelectedIndex(ws, SelectionOf(config, defaultWidgetId, defaultWidgetType));
              r.value.currentWidget.widgetId == if k < 0 then defaultWidgetId else ws[k].widgetId
  {
    var r := InitAppSpec(config, layout, defaultWidgetId, defaultWidgetType, platform, ext);
    if r.Ok? {
      InitAppStages(config, layout, defaultWidgetId, defaultWidgetType, platform, ext);
      InitialWidgetFound(LayoutWidgets(layout), SelectionOf(config, defaultWidgetId, defaultWidgetType));
    }
  }

  /** Start-up fails on the initial widget only when nothing was selected
      and no widget of the layout carries the default id. */
  lemma InitAppMissingWidget(
    config: ConfigV2, layout: BottomLayout, defaultWidgetId: u64,
    defaultWidgetType: Option<BottomWidgetType>, platform: Platform, ext: Collaborators)
    ensures var r, ws := InitAppSpec(config, layout, defaultWidgetId, defaultWidgetType, platform, ext),
                         LayoutWidgets(layout);
            r.Err? && r.error.MissingInitialWidget? ==>
              && r.error.id == defaultWidgetId
              && (forall i :: 0 <= i < |ws| ==> !Selects(SelectionOf(config, defaultWidgetId, defaultWidgetType), ws[i]))
              && (forall i :: 0 <= i < |ws| ==> ws[i].widgetId != defaultWidgetId)
  {
    var ws, sel := LayoutWidgets(layout), SelectionOf(config, defaultWidgetId, defaultWidgetType);
    if InitialAfter(ws, sel).0 !in WidgetMapOf(ws) {
      InitialMissing(ws, sel);
    }
  }

  /** With distinct widget ids, each Cpu, Mem, Net, Proc, Disk, Temp and
      Battery widget has exactly one state, in its own kind's table, and no
      other widget has one; a process widget's mode follows the grouping and
      tree options. */
  lemma InitAppWidgetStates(
    config: ConfigV2, layout: BottomLayout, defaultWidgetId: u64,
    defaultWidgetType: Option<BottomWidgetType>, platform: Platform, ext: Collaborators, i: nat)
    requires UniqueIds(LayoutWidgets(layout)) && i < |LayoutWidgets(layout)|
    ensures var r, w := InitAppSpec(config, layout, defaultWidgetId, defaultWidgetType, platform, ext),
                        LayoutWidgets(layout)[i];
            r.Ok? ==> var s := r.value.states;
              && (w.widgetId in s.cpuState <==> w.widgetType == Cpu)
              && (w.widgetId in s.memState <==> w.widgetType == Mem)
              && (w.widgetId in s.netState <==> w.widgetType == Net)
              && (w.widgetId in s.procState <==> w.widgetType == Proc)
              && (w.widgetId in s.diskState <==> w.widgetType == Disk)
              && (w.widgetId in s.tempState <==> w.widgetType == Temp)
              && (w.widgetId in s.batteryState <==> w.widgetType == Battery)
              && (w.widgetId in s.procState ==>
                    var mode := s.procState[w.widgetId].mode;
                    && (mode.Grouped? <==> config.process.args.groupProcesses == Some(true))
                    && (mode.Tree? <==> config.process.args.groupProcesses != Some(true)
                                        && config.process.args.tree == Some(true))
                    && (mode.Tree? ==> mode.collapsedPids == {}))
              && (w.widgetId in s.cpuState ==>
                    s.cpuState[w.widgetId].defaultTimeValue == r.value.appConfigFields.defaultTimeValue)
              && w.widgetId in r.value.widgetMap && r.value.widgetMap[w.widgetId] == w
  {
    var r := InitAppSpec(config, layout, defaultWidgetId, defaultWidgetType, platform, ext);
    if r.Ok? {
      InitAppStages(config, layout, defaultWidgetId, defaultWidgetType, platform, ext);
      var p := WalkParamsOf(config, r.value.appConfigFields, defaultWidgetId, defaultWidgetType);
      EachWidgetOneState(LayoutWidgets(layout), p, i);
    }
  }

  /** The data families polled are those whose widgets occur in the layout. */
  lemma InitAppUsedWidgets(
    config: ConfigV2, layout: BottomLayout, defaultWidgetId: u64,
    defaultWidgetType: Option<BottomWidgetType>, platform: Platform, ext: Collaborators)
    ensures var r, ws := InitAppSpec(config, layout, defaultWidgetId, defaultWidgetType, platform, ext),
                         LayoutWidgets(layout);
            r.Ok? ==> var u := r.value.usedWidgets;
              && (u.useCpu <==> exists i :: 0 <= i < |ws| && ws[i].widgetType in {Cpu, BasicCpu})
              && (u.useMem <==> exists i :: 0 <= i < |ws| && ws[i].widgetType in {Mem, BasicMem})
              && (u.useNet <==> exists i :: 0 <= i < |ws| && ws[i].widgetType in {Net, BasicNet})
              && (u.useProc <==> exists i :: 0 <= i < |ws| && ws[i].widgetType == Proc)
              && (u.useDisk <==> exists i :: 0 <= i < |ws| && ws[i].widgetType == Disk)
              && (u.useTemp <==> exists i :: 0 <= i < |ws| && ws[i].widgetType == Temp)
              && (u.useBattery <==> exists i :: 0 <= i < |ws| && ws[i].widgetType == Battery)
              && (u.useCache <==> u.useMem && !platform.isWindows && config.enableCacheMemory == Some(true))
              && (u.useGpu <==> platform.gpuFeature && config.gpuEnabled)
  {
    var r, ws := InitAppSpec(config, layout, defaultWidgetId, defaultWidgetType, platform, ext), LayoutWidgets(layout);
    if r.Ok? {
      InitAppStages(config, layout, defaultWidgetId, defaultWidgetType, platform, ext);
      UsedWidgetsOfWalk(ws, GetEnableCacheMemory(config, platform), platform.gpuFeature && config.gpuEnabled);
    }
  }

  /** Basic mode gets the tabbed table container, with the reserved id 100;
      other modes get none. It shows the focused widget when the type the
      last selecting widget records (Proc when none selects) is a table,
      and the reserved process table otherwise. */
  lemma InitAppBasicTable(
    config: ConfigV2, layout: BottomLayout, defaultWidgetId: u64,
    defaultWidgetType: Option<BottomWidgetType>, platform: Platform, ext: Collaborators)
    ensures var r := InitAppSpec(config, layout, defaultWidgetId, defaultWidgetType, platform, ext);
            r.Ok? ==> var b := r.value.states.basicTableWidgetState;
              && (b.Some? <==> config.general.basic == Some(true))
              && (b.Some? ==>
                    && b.value.widgetId == BASIC_TABLE_WIDGET_ID
                    && IsTableType(b.value.currentlyDisplayedWidgetType)
                    && (b.value.currentlyDisplayedWidgetId == r.value.currentWidget.widgetId
                        || (b.value.currentlyDisplayedWidgetType == Proc
                            && b.value.currentlyDisplayedWidgetId == DEFAULT_WIDGET_ID)))
    ensures var r, ws := InitAppSpec(config, layout, defaultWidgetId, defaultWidgetType, platform, ext),
                         LayoutWidgets(layout);
            r.Ok? && config.general.basic == Some(true) ==>
              var b := r.value.states.basicTableWidgetState.value;
              var k := LastSelectedIndex(ws, SelectionOf(config, defaultWidgetId, defaultWidgetType));
              var shown := if k < 0 then Proc else SelectedType(ws[k].widgetType);
              if IsTableType(shown) then
                b.currentlyDisplayedWidgetType == shown
                && b.currentlyDisplayedWidgetId == r.value.currentWidget.widgetId
              else
                b.currentlyDisplayedWidgetType == Proc && b.currentlyDisplayedWidgetId == DEFAULT_WIDGET_ID
  {
    var r := InitAppSpec(config, layout, defaultWidgetId, defaultWidgetType, platform, ext);
    if r.Ok? {
      var ws, sel := LayoutWidgets(layout), SelectionOf(config, defaultWidgetId, defaultWidgetType);
      InitAppStages(config, layout, defaultWidgetId, defaultWidgetType, platform, ext);
      InitialWidgetFound(ws, sel);
      InitialAfterIsLastSelected(ws, sel);
    }
  }
}
