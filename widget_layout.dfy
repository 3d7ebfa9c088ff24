/** `get_widget_layout` of `src/options.rs`: picks the basic template, the
    user's rows or the default rows, converts the rows one by one while the
    converter threads its counters, and refuses a layout without widgets. */
module WidgetLayout {
  import opened Results
  import opened Config
  import Validators
  import opened WidgetWalk

  /** The triple returned by `get_widget_layout`. */
  datatype LayoutSelection = LayoutSelection(
    layout: BottomLayout, defaultWidgetId: u64, defaultWidgetType: Option<BottomWidgetType>)

  predicate IsBasic(config: ConfigV2) {
    config.general.basic == Some(true)
  }

  /** The counters the first row is converted with: no ids handed out, no
      height yet, the default widget id at 1 and the requested occurrence. */
  function StartCounters(defaultWidgetCount: u64): LayoutCounters {
    LayoutCounters(0, 0, 1, defaultWidgetCount)
  }

  /** The `map` and `collect` over the rows: each row is converted with the
      counters the previous one left, and the first error ends the walk. */
  function ConvertRows(
    rows: seq<Row>, defaultWidgetType: Option<BottomWidgetType>, leftLegend: bool,
    counters: LayoutCounters, ext: Collaborators)
    : (r: Result<(seq<BottomRow>, LayoutCounters), ConfigError>)
    ensures r.Ok? ==> |r.value.0| == |rows|
    ensures rows == [] ==> r == Ok(([], counters))
    decreases |rows|
  {
    if rows == [] then Ok(([], counters))
    else
      var first :- ext.convertRow(rows[0], defaultWidgetType, leftLegend, counters);
      var rest :- ConvertRows(rows[1..], defaultWidgetType, leftLegend, first.1, ext);
      Ok(([first.0] + rest.0, rest.1))
  }

  /** The rows that are walked when basic mode is off. */
  function SourceRows(config: ConfigV2, platform: Platform, ext: Collaborators): seq<Row> {
    match config.row
    case Some(rows) => rows
    case None => ext.defaultRows(platform.useBattery)
  }

  function LeftLegend(config: ConfigV2): bool {
    config.cpu.leftLegend.UnwrapOr(false)
  }

  function WidgetLayoutSpec(config: ConfigV2, platform: Platform, ext: Collaborators)
    : Result<LayoutSelection, ConfigError>
  {
    var choice :- Validators.GetDefaultWidgetAndCount(config, ext.parseWidgetType);
    if IsBasic(config) then
      Ok(LayoutSelection(ext.basicLayout(platform.useBattery), DEFAULT_WIDGET_ID, choice.0))
    else
      var converted :- ConvertRows(SourceRows(config, platform, ext), choice.0, LeftLegend(config),
                                   StartCounters(choice.1), ext);
      if converted.1.iterId > 0 then
        Ok(LayoutSelection(BottomLayout(converted.0, converted.1.totalHeightRatio),
                           converted.1.defaultWidgetId, choice.0))
      else
        Err(EmptyLayout)
  }

  /** The result of converting the rest of the rows, behind the rows already converted. */
  function AfterConverted(done: seq<BottomRow>, rest: Result<(seq<BottomRow>, LayoutCounters), ConfigError>)
    : Result<(seq<BottomRow>, LayoutCounters), ConfigError>
  {
    match rest
    case Ok(v) => Ok((done + v.0, v.1))
    case Err(e) => Err(e)
  }

  method GetWidgetLayout(config: ConfigV2, platform: Platform, ext: Collaborators)
    returns (r: Result<LayoutSelection, ConfigError>)
    ensures r == WidgetLayoutSpec(config, platform, ext)
  {
    var leftLegend := LeftLegend(config);
    var choice := Validators.GetDefaultWidgetAndCount(config, ext.parseWidgetType);
    if choice.Err? {
      return Err(choice.error);
    }
    var defaultWidgetType := choice.value.0;
    var defaultWidgetCount := choice.value.1;
    var defaultWidgetId: u64 := 1;

    if IsBasic(config) {
      defaultWidgetId := DEFAULT_WIDGET_ID;
      return Ok(LayoutSelection(ext.basicLayout(platform.useBattery), defaultWidgetId, defaultWidgetType));
    }

    var rows := SourceRows(config, platform, ext);
    var iterId: nat := 0;
    var totalHeightRatio: nat := 0;
    var converted: seq<BottomRow> := [];
    ghost var whole := ConvertRows(rows, defaultWidgetType, leftLegend, StartCounters(defaultWidgetCount), ext);
    assert rows[0..] == rows;
    if whole.Ok? {
      assert [] + whole.value.0 == whole.value.0;
    }
    var i := 0;
    while i < |rows|
      invariant 0 <= i <= |rows|
      invariant whole == AfterConverted(converted, ConvertRows(rows[i..], defaultWidgetType, leftLegend,
                  LayoutCounters(iterId, totalHeightRatio, defaultWidgetId, defaultWidgetCount), ext))
    {
      var counters := LayoutCounters(iterId, totalHeightRatio, defaultWidgetId, defaultWidgetCount);
      var step := ext.convertRow(rows[i], defaultWidgetType, leftLegend, counters);
      assert rows[i..][0] == rows[i] && rows[i..][1..] == rows[i + 1..];
      if step.Err? {
        return Err(step.error);
      }
      ghost var rest := ConvertRows(rows[i + 1..], defaultWidgetType, leftLegend, step.value.1, ext);
      if rest.Ok? {
        assert converted + ([step.value.0] + rest.value.0) == (converted + [step.value.0]) + rest.value.0;
      }
      converted := converted + [step.value.0];
      iterId, totalHeightRatio := step.value.1.iterId, step.value.1.totalHeightRatio;
      defaultWidgetId, defaultWidgetCount := step.value.1.defaultWidgetId, step.value.1.defaultWidgetCount;
      i := i + 1;
    }
    assert rows[i..] == [];
    assert converted + [] == converted;

    if iterId > 0 {
      r := Ok(LayoutSelection(BottomLayout(converted, totalHeightRatio), defaultWidgetId, defaultWidgetType));
    } else {
      r := Err(EmptyLayout);
    }
  }

  /** In basic mode the built-in template is used and the default id is the reserved one. */
  lemma BasicModeForcesDefaultId(config: ConfigV2, platform: Platform, ext: Collaborators)
    requires IsBasic(config)
    ensures var r := WidgetLayoutSpec(config, platform, ext);
            r.Ok? ==> r.value.defaultWidgetId == DEFAULT_WIDGET_ID
                      && r.value.layout == ext.basicLayout(platform.useBattery)
    ensures WidgetLayoutSpec(config, platform, ext).Ok? <==>
              Validators.GetDefaultWidgetAndCount(config, ext.parseWidgetType).Ok?
  {
  }

  /** A count without a type is refused before any layout is looked at. */
  lemma CountWithoutTypeRejected(config: ConfigV2, platform: Platform, ext: Collaborators)
    requires config.general.defaultWidgetType.None? && config.general.defaultWidgetCount.Some?
    ensures WidgetLayoutSpec(config, platform, ext) == Err(DefaultCountWithoutType)
  {
  }

  /** An accepted layout outside basic mode has one converted row per source
      row and at least one row; an empty row list is refused. */
  lemma CustomLayoutNotEmpty(config: ConfigV2, platform: Platform, ext: Collaborators)
    requires !IsBasic(config)
    ensures var r := WidgetLayoutSpec(config, platform, ext);
            r.Ok? ==> |r.value.layout.rows| == |SourceRows(config, platform, ext)| > 0
    ensures config.row == Some([]) ==> WidgetLayoutSpec(config, platform, ext).Err?
  {
  }

  /** A converter that never moves the default widget id. */
  ghost predicate KeepsDefaultId(ext: Collaborators) {
    forall row, t, legend, c ::
      ext.convertRow(row, t, legend, c).Ok? ==>
        ext.convertRow(row, t, legend, c).value.1.defaultWidgetId == c.defaultWidgetId
  }

  lemma {:induction false} ConvertRowsKeepsDefaultId(
    rows: seq<Row>, t: Option<BottomWidgetType>, legend: bool, c: LayoutCounters, ext: Collaborators)
    requires KeepsDefaultId(ext)
    ensures var r := ConvertRows(rows, t, legend, c, ext);
            r.Ok? ==> r.value.1.defaultWidgetId == c.defaultWidgetId
    decreases |rows|
  {
    if rows != [] {
      var first := ext.convertRow(rows[0], t, legend, c);
      if first.Ok? {
        ConvertRowsKeepsDefaultId(rows[1..], t, legend, first.value.1, ext);
      }
    }
  }

  /** Outside basic mode the default id starts at 1: if no row marks a
      default widget, 1 is what is returned. */
  lemma DefaultIdStartsAtOne(config: ConfigV2, platform: Platform, ext: Collaborators)
    requires !IsBasic(config) && KeepsDefaultId(ext)
    ensures var r := WidgetLayoutSpec(config, platform, ext);
            r.Ok? ==> r.value.defaultWidgetId == 1
  {
    var choice := Validators.GetDefaultWidgetAndCount(config, ext.parseWidgetType);
    if choice.Ok? {
      ConvertRowsKeepsDefaultId(SourceRows(config, platform, ext), choice.value.0, LeftLegend(config),
                                StartCounters(choice.value.1), ext);
    }
  }

  /** A converter whose id counter goes up by one per widget of the row it
      returns, as the counter that hands out the widget ids does. */
  ghost predicate CountsWidgets(ext: Collaborators) {
    forall row, t, legend, c ::
      ext.convertRow(row, t, legend, c).Ok? ==>
        ext.convertRow(row, t, legend, c).value.1.iterId
          == c.iterId + |ColsWidgets(ext.convertRow(row, t, legend, c).value.0.children)|
  }

  lemma {:induction false} RowsWidgetsCons(a: BottomRow, rest: seq<BottomRow>)
    ensures RowsWidgets([a] + rest) == ColsWidgets(a.children) + RowsWidgets(rest)
    decreases |rest|
  {
    var all := [a] + rest;
    if rest == [] {
      assert all == [a] && all[..|all| - 1] == [];
      assert RowsWidgets(all) == [] + ColsWidgets(a.children);
      assert ColsWidgets(a.children) + RowsWidgets(rest) == ColsWidgets(a.children) + [];
    } else {
      var init, last := rest[..|rest| - 1], rest[|rest| - 1];
      assert all[..|all| - 1] == [a] + init && all[|all| - 1] == last;
      RowsWidgetsCons(a, init);
      calc {
        RowsWidgets(all);
        RowsWidgets([a] + init) + ColsWidgets(last.children);
        (ColsWidgets(a.children) + RowsWidgets(init)) + ColsWidgets(last.children);
        ColsWidgets(a.children) + (RowsWidgets(init) + ColsWidgets(last.children));
        ColsWidgets(a.children) + RowsWidgets(rest);
      }
    }
  }

  /** With a counting converter, the counter ends at its start value plus
      the number of widgets in the converted rows. */
  lemma {:induction false} ConvertRowsCountsWidgets(
    rows: seq<Row>, t: Option<BottomWidgetType>, legend: bool, c: LayoutCounters, ext: Collaborators)
    requires CountsWidgets(ext)
    ensures var r := ConvertRows(rows, t, legend, c, ext);
            r.Ok? ==> r.value.1.iterId == c.iterId + |RowsWidgets(r.value.0)|
    decreases |rows|
  {
    if rows != [] {
      var first := ext.convertRow(rows[0], t, legend, c);
      if first.Ok? {
        var rest := ConvertRows(rows[1..], t, legend, first.value.1, ext);
        ConvertRowsCountsWidgets(rows[1..], t, legend, first.value.1, ext);
        if rest.Ok? {
          RowsWidgetsCons(first.value.0, rest.value.0);
        }
      }
    }
  }

  /** Outside basic mode, with a counting converter, a layout is accepted
      exactly when its converted rows hold at least one widget; converted
      rows without a widget are refused as an empty layout. */
  lemma EmptyLayoutRefused(config: ConfigV2, platform: Platform, ext: Collaborators)
    requires !IsBasic(config) && CountsWidgets(ext)
    ensures var r := WidgetLayoutSpec(config, platform, ext);
            r.Ok? ==> |LayoutWidgets(r.value.layout)| > 0
    ensures var choice := Validators.GetDefaultWidgetAndCount(config, ext.parseWidgetType);
            choice.Ok? ==>
              var conv := ConvertRows(SourceRows(config, platform, ext), choice.value.0, LeftLegend(config),
                                      StartCounters(choice.value.1), ext);
              conv.Ok? ==>
                && (WidgetLayoutSpec(config, platform, ext).Ok? <==> |RowsWidgets(conv.value.0)| > 0)
                && (RowsWidgets(conv.value.0) == [] ==> WidgetLayoutSpec(config, platform, ext) == Err(EmptyLayout))
  {
    var choice := Validators.GetDefaultWidgetAndCount(config, ext.parseWidgetType);
    if choice.Ok? {
      ConvertRowsCountsWidgets(SourceRows(config, platform, ext), choice.value.0, LeftLegend(config),
                               StartCounters(choice.value.1), ext);
    }
  }
}
