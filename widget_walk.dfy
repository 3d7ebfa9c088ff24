/** The widget walk of `init_app` (`src/options.rs`): for every widget of the
    resolved layout, rows then columns then column rows then widgets, it
    records the widget by id, may make it the initial widget, notes its
    kind, and gives it a state in the table of its kind. The walk is
    specified by folds over the widgets in traversal order. */
module WidgetWalk {
  import opened Results
  import opened Config
  import opened WidgetStates

  /** What decides the initial widget: the id and type `get_widget_layout`
      returned, whether the rows came from the configuration, and basic mode. */
  datatype Selection = Selection(
    defaultWidgetId: u64,
    defaultWidgetType: Option<BottomWidgetType>,
    isCustomLayout: bool,
    useBasicMode: bool)

  /** What the walk reads besides the layout. */
  datatype WalkParams = WalkParams(
    selection: Selection,
    fields: AppConfigFields,
    defaultCpuEntry: CpuDefault,
    autohideTimer: bool,
    isGrouped: bool,
    isDefaultTree: bool,
    tableConfig: ProcTableConfig,
    procColumns: Option<seq<ProcWidgetColumn>>)

  /** The tables `init_app` fills in its loop (its local maps, set and two
      variables, kept together). */
  datatype WidgetTables = WidgetTables(
    widgetMap: map<u64, BottomWidget>,
    cpuStates: map<u64, CpuWidgetState>,
    memStates: map<u64, MemWidgetState>,
    netStates: map<u64, NetWidgetState>,
    procStates: map<u64, ProcWidgetState>,
    diskStates: map<u64, DiskTableWidget>,
    tempStates: map<u64, TempWidgetState>,
    batteryStates: map<u64, BatteryWidgetState>,
    usedWidgetSet: set<BottomWidgetType>,
    initialWidgetId: u64,
    initialWidgetType: BottomWidgetType)

  // ---------------------------------------------------------------------
  // Traversal order

  function ColRowsWidgets(colRows: seq<BottomColRow>): seq<BottomWidget> {
    if colRows == [] then []
    else ColRowsWidgets(colRows[..|colRows| - 1]) + colRows[|colRows| - 1].children
  }

  function ColsWidgets(cols: seq<BottomCol>): seq<BottomWidget> {
    if cols == [] then []
    else ColsWidgets(cols[..|cols| - 1]) + ColRowsWidgets(cols[|cols| - 1].children)
  }

  function RowsWidgets(rows: seq<BottomRow>): seq<BottomWidget> {
    if rows == [] then []
    else RowsWidgets(rows[..|rows| - 1]) + ColsWidgets(rows[|rows| - 1].children)
  }

  /** Every widget of the layout, in the order the nested loops visit them. */
  function LayoutWidgets(layout: BottomLayout): seq<BottomWidget> {
    RowsWidgets(layout.rows)
  }

  // ---------------------------------------------------------------------
  // The state each kind of widget is given

  function CpuStateFor(p: WalkParams): CpuWidgetState {
    CpuWidgetState(p.fields, p.defaultCpuEntry, p.fields.defaultTimeValue, p.autohideTimer)
  }

  function MemStateFor(p: WalkParams): MemWidgetState {
    MemWidgetState(p.fields.defaultTimeValue, p.autohideTimer)
  }

  function NetStateFor(p: WalkParams): NetWidgetState {
    NetWidgetState(p.fields.defaultTimeValue, p.autohideTimer)
  }

  function ProcStateFor(p: WalkParams): ProcWidgetState {
    ProcWidgetState(p.fields, ProcMode(p.isGrouped, p.isDefaultTree), p.tableConfig, p.procColumns)
  }

  // ---------------------------------------------------------------------
  // The initial widget

  /** The default type is honoured only with the built-in layouts or in basic mode. */
  predicate SelectionApplies(s: Selection) {
    s.defaultWidgetType.Some? && (!s.isCustomLayout || s.useBasicMode)
  }

  /** A basic-mode alias stands for its full widget; any other tag only for itself. */
  predicate MatchesDefault(widgetType: BottomWidgetType, defaultType: BottomWidgetType) {
    match widgetType
    case BasicCpu => defaultType == Cpu
    case BasicMem => defaultType == Mem
    case BasicNet => defaultType == Net
    case _ => defaultType == widgetType
  }

  /** The type recorded for a selected widget: all three aliases record Cpu. */
  function SelectedType(widgetType: BottomWidgetType): BottomWidgetType {
    match widgetType
    case BasicCpu => Cpu
    case BasicMem => Cpu
    case BasicNet => Cpu
    case _ => widgetType
  }

  predicate Selects(s: Selection, w: BottomWidget) {
    SelectionApplies(s) && MatchesDefault(w.widgetType, s.defaultWidgetType.value)
  }

  function InitialAfter(ws: seq<BottomWidget>, s: Selection): (u64, BottomWidgetType) {
    if ws == [] then (s.defaultWidgetId, Proc)
    else
      var w := ws[|ws| - 1];
      if Selects(s, w) then (w.widgetId, SelectedType(w.widgetType)) else InitialAfter(ws[..|ws| - 1], s)
  }

  // ---------------------------------------------------------------------
  // The tables after a prefix of the walk

  function WidgetMapOf(ws: seq<BottomWidget>): map<u64, BottomWidget> {
    if ws == [] then map[]
    else WidgetMapOf(ws[..|ws| - 1])[ws[|ws| - 1].widgetId := ws[|ws| - 1]]
  }

  function TypesOf(ws: seq<BottomWidget>): set<BottomWidgetType> {
    if ws == [] then {}
    else TypesOf(ws[..|ws| - 1]) + {ws[|ws| - 1].widgetType}
  }

  /** The state table of kind `t`, every entry holding `s`. */
  function StateMap<S>(ws: seq<BottomWidget>, t: BottomWidgetType, s: S): map<u64, S> {
    if ws == [] then map[]
    else
      var m := StateMap(ws[..|ws| - 1], t, s);
      if ws[|ws| - 1].widgetType == t then m[ws[|ws| - 1].widgetId := s] else m
  }

  function TablesAfter(ws: seq<BottomWidget>, p: WalkParams): WidgetTables {
    WidgetTables(
      WidgetMapOf(ws),
      StateMap(ws, Cpu, CpuStateFor(p)),
      StateMap(ws, Mem, MemStateFor(p)),
      StateMap(ws, Net, NetStateFor(p)),
      StateMap(ws, Proc, ProcStateFor(p)),
      StateMap(ws, Disk, DiskTableWidget(p.fields)),
      StateMap(ws, Temp, TempWidgetState(p.fields)),
      StateMap(ws, Battery, BatteryWidgetState),
      TypesOf(ws),
      InitialAfter(ws, p.selection).0,
      InitialAfter(ws, p.selection).1)
  }

  // ---------------------------------------------------------------------
  // The loop

  /** The `if let Some(default_widget_type)` block of the loop body. */
  method ChooseInitial(widget: BottomWidget, s: Selection, current: (u64, BottomWidgetType))
    returns (chosen: (u64, BottomWidgetType))
    ensures chosen == if Selects(s, widget) then (widget.widgetId, SelectedType(widget.widgetType)) else current
  {
    chosen := current;
    if s.defaultWidgetType.Some? {
      var defaultWidgetType := s.defaultWidgetType.value;
      if !s.isCustomLayout || s.useBasicMode {
        match widget.widgetType {
          case BasicCpu =>
            if defaultWidgetType == Cpu {
              chosen := (widget.widgetId, Cpu);
            }
          case BasicMem =>
            if defaultWidgetType == Mem {
              chosen := (widget.widgetId, Cpu);
            }
          case BasicNet =>
            if defaultWidgetType == Net {
              chosen := (widget.widgetId, Cpu);
            }
          case _ =>
            if defaultWidgetType == widget.widgetType {
              chosen := (widget.widgetId, widget.widgetType);
            }
        }
      }
    }
  }

  /** The `match widget.widgetType` block of the loop body: one new state
      in the table of the widget's kind, nothing for the other tags. */
  method AddState(t: WidgetTables, widget: BottomWidget, p: WalkParams) returns (next: WidgetTables)
    ensures var w := widget;
            next == t.(
              cpuStates := if w.widgetType == Cpu then t.cpuStates[w.widgetId := CpuStateFor(p)] else t.cpuStates,
              memStates := if w.widgetType == Mem then t.memStates[w.widgetId := MemStateFor(p)] else t.memStates,
              netStates := if w.widgetType == Net then t.netStates[w.widgetId := NetStateFor(p)] else t.netStates,
              procStates := if w.widgetType == Proc then t.procStates[w.widgetId := ProcStateFor(p)] else t.procStates,
              diskStates := if w.widgetType == Disk then t.diskStates[w.widgetId := DiskTableWidget(p.fields)]
                            else t.diskStates,
              tempStates := if w.widgetType == Temp then t.tempStates[w.widgetId := TempWidgetState(p.fields)]
                            else t.tempStates,
              batteryStates := if w.widgetType == Battery then t.batteryStates[w.widgetId := BatteryWidgetState]
                               else t.batteryStates)
  {
    next := t;
    var id := widget.widgetId;
    match widget.widgetType {
      case Cpu =>
        next := next.(cpuStates := next.cpuStates[id :=
          CpuWidgetState(p.fields, p.defaultCpuEntry, p.fields.defaultTimeValue, p.autohideTimer)]);
      case Mem =>
        next := next.(memStates := next.memStates[id := MemWidgetState(p.fields.defaultTimeValue, p.autohideTimer)]);
      case Net =>
        next := next.(netStates := next.netStates[id := NetWidgetState(p.fields.defaultTimeValue, p.autohideTimer)]);
      case Proc =>
        var mode := if p.isGrouped then Grouped else if p.isDefaultTree then Tree({}) else Normal;
        next := next.(procStates := next.procStates[id := ProcWidgetState(p.fields, mode, p.tableConfig, p.procColumns)]);
      case Disk =>
        next := next.(diskStates := next.diskStates[id := DiskTableWidget(p.fields)]);
      case Temp =>
        next := next.(tempStates := next.tempStates[id := TempWidgetState(p.fields)]);
      case Battery =>
        next := next.(batteryStates := next.batteryStates[id := BatteryWidgetState]);
      case _ =>
    }
  }

  /** The body of the innermost loop, for one widget. */
  method VisitWidget(t: WidgetTables, widget: BottomWidget, p: WalkParams, ghost done: seq<BottomWidget>)
    returns (next: WidgetTables)
    requires t == TablesAfter(done, p)
    ensures next == TablesAfter(done + [widget], p)
  {
    var initial := ChooseInitial(widget, p.selection, (t.initialWidgetId, t.initialWidgetType));
    next := t.(widgetMap := t.widgetMap[widget.widgetId := widget],
               initialWidgetId := initial.0, initialWidgetType := initial.1,
               usedWidgetSet := t.usedWidgetSet + {widget.widgetType});
    next := AddState(next, widget, p);
    TablesAfterSnoc(done, widget, p);
  }

  /** One more widget: each table takes one step of its fold. */
  lemma TablesAfterSnoc(done: seq<BottomWidget>, w: BottomWidget, p: WalkParams)
    ensures var t, t' := TablesAfter(done, p), TablesAfter(done + [w], p);
            && t'.widgetMap == t.widgetMap[w.widgetId := w]
            && t'.usedWidgetSet == t.usedWidgetSet + {w.widgetType}
            && (t'.initialWidgetId, t'.initialWidgetType) ==
                 (if Selects(p.selection, w) then (w.widgetId, SelectedType(w.widgetType))
                  else (t.initialWidgetId, t.initialWidgetType))
            && t'.cpuStates == (if w.widgetType == Cpu then t.cpuStates[w.widgetId := CpuStateFor(p)] else t.cpuStates)
            && t'.memStates == (if w.widgetType == Mem then t.memStates[w.widgetId := MemStateFor(p)] else t.memStates)
            && t'.netStates == (if w.widgetType == Net then t.netStates[w.widgetId := NetStateFor(p)] else t.netStates)
            && t'.procStates == (if w.widgetType == Proc then t.procStates[w.widgetId := ProcStateFor(p)] else t.procStates)
            && t'.diskStates == (if w.widgetType == Disk then t.diskStates[w.widgetId := DiskTableWidget(p.fields)]
                                 else t.diskStates)
            && t'.tempStates == (if w.widgetType == Temp then t.tempStates[w.widgetId := TempWidgetState(p.fields)]
                                 else t.tempStates)
            && t'.batteryStates == (if w.widgetType == Battery then t.batteryStates[w.widgetId := BatteryWidgetState]
                                    else t.batteryStates)
  {
    StateMapSnoc(done, w, Cpu, CpuStateFor(p));
    StateMapSnoc(done, w, Mem, MemStateFor(p));
    StateMapSnoc(done, w, Net, NetStateFor(p));
    StateMapSnoc(done, w, Proc, ProcStateFor(p));
    StateMapSnoc(done, w, Disk, DiskTableWidget(p.fields));
    StateMapSnoc(done, w, Temp, TempWidgetState(p.fields));
    StateMapSnoc(done, w, Battery, BatteryWidgetState);
    LastOfSnoc(done, w);
  }

  lemma LastOfSnoc(done: seq<BottomWidget>, w: BottomWidget)
    ensures var all := done + [w]; all != [] && all[..|all| - 1] == done && all[|all| - 1] == w
  {
  }

  lemma StateMapSnoc<S>(done: seq<BottomWidget>, w: BottomWidget, t: BottomWidgetType, s: S)
    ensures StateMap(done + [w], t, s) ==
              if w.widgetType == t then StateMap(done, t, s)[w.widgetId := s] else StateMap(done, t, s)
  {
    LastOfSnoc(done, w);
  }

  /** The innermost loop: the widgets of one column row. */
  method CollectColRow(t0: WidgetTables, colRow: BottomColRow, p: WalkParams, ghost before: seq<BottomWidget>)
    returns (t: WidgetTables)
    requires t0 == TablesAfter(before, p)
    ensures t == TablesAfter(before + colRow.children, p)
  {
    t := t0;
    ghost var done := before;
    var m := 0;
    while m < |colRow.children|
      invariant 0 <= m <= |colRow.children|
      invariant done == before + colRow.children[..m]
      invariant t == TablesAfter(done, p)
    {
      var widget := colRow.children[m];
      t := VisitWidget(t, widget, p, done);
      assert colRow.children[..m + 1] == colRow.children[..m] + [widget];
      done := done + [widget];
      m := m + 1;
    }
    assert colRow.children[..m] == colRow.children;
  }

  /** The loop over the column rows of one column. */
  method CollectCol(t0: WidgetTables, col: BottomCol, p: WalkParams, ghost before: seq<BottomWidget>)
    returns (t: WidgetTables)
    requires t0 == TablesAfter(before, p)
    ensures t == TablesAfter(before + ColRowsWidgets(col.children), p)
  {
    t := t0;
    assert before + ColRowsWidgets(col.children[..0]) == before;
    var k := 0;
    while k < |col.children|
      invariant 0 <= k <= |col.children|
      invariant t == TablesAfter(before + ColRowsWidgets(col.children[..k]), p)
    {
      t := CollectColRow(t, col.children[k], p, before + ColRowsWidgets(col.children[..k]));
      ColRowsStep(col.children, k, before);
      k := k + 1;
    }
    assert col.children[..k] == col.children;
  }

  /** The loop over the columns of one row. */
  method CollectRow(t0: WidgetTables, row: BottomRow, p: WalkParams, ghost before: seq<BottomWidget>)
    returns (t: WidgetTables)
    requires t0 == TablesAfter(before, p)
    ensures t == TablesAfter(before + ColsWidgets(row.children), p)
  {
    t := t0;
    assert before + ColsWidgets(row.children[..0]) == before;
    var j := 0;
    while j < |row.children|
      invariant 0 <= j <= |row.children|
      invariant t == TablesAfter(before + ColsWidgets(row.children[..j]), p)
    {
      t := CollectCol(t, row.children[j], p, before + ColsWidgets(row.children[..j]));
      ColsStep(row.children, j, before);
      j := j + 1;
    }
    assert row.children[..j] == row.children;
  }

  /** The outer loop over the rows of the layout, from empty tables and the
      reserved default widget (as Proc) as the initial one. */
  method CollectWidgets(layout: BottomLayout, p: WalkParams) returns (t: WidgetTables)
    ensures t == TablesAfter(LayoutWidgets(layout), p)
  {
    t := WidgetTables(map[], map[], map[], map[], map[], map[], map[], map[], {}, p.selection.defaultWidgetId, Proc);
    var rows := layout.rows;
    var i := 0;
    while i < |rows|
      invariant 0 <= i <= |rows|
      invariant t == TablesAfter(RowsWidgets(rows[..i]), p)
    {
      t := CollectRow(t, rows[i], p, RowsWidgets(rows[..i]));
      RowsStep(rows, i);
      i := i + 1;
    }
    assert rows[..i] == rows;
  }

  lemma ColRowsStep(colRows: seq<BottomColRow>, k: nat, before: seq<BottomWidget>)
    requires k < |colRows|
    ensures before + ColRowsWidgets(colRows[..k + 1]) == (before + ColRowsWidgets(colRows[..k])) + colRows[k].children
  {
    assert colRows[..k + 1][..k] == colRows[..k];
  }

  lemma ColsStep(cols: seq<BottomCol>, j: nat, before: seq<BottomWidget>)
    requires j < |cols|
    ensures before + ColsWidgets(cols[..j + 1]) == (before + ColsWidgets(cols[..j])) + ColRowsWidgets(cols[j].children)
  {
    assert cols[..j + 1][..j] == cols[..j];
  }

  lemma RowsStep(rows: seq<BottomRow>, i: nat)
    requires i < |rows|
    ensures RowsWidgets(rows[..i + 1]) == RowsWidgets(rows[..i]) + ColsWidgets(rows[i].children)
  {
    assert rows[..i + 1][..i] == rows[..i];
  }

  // ---------------------------------------------------------------------
  // What the tables hold

  /** A state table has an entry for an id exactly when a widget of that
      kind has that id, and every entry is the kind's state. */
  lemma {:induction false} StateMapMembers<S>(ws: seq<BottomWidget>, t: BottomWidgetType, s: S, id: u64)
    ensures id in StateMap(ws, t, s) <==>
              exists i :: 0 <= i < |ws| && ws[i].widgetId == id && ws[i].widgetType == t
    ensures id in StateMap(ws, t, s) ==> StateMap(ws, t, s)[id] == s
  {
    if ws != [] {
      var pre := ws[..|ws| - 1];
      StateMapMembers(pre, t, s, id);
      if exists i :: 0 <= i < |ws| && ws[i].widgetId == id && ws[i].widgetType == t {
        var i :| 0 <= i < |ws| && ws[i].widgetId == id && ws[i].widgetType == t;
        if i < |pre| {
          assert pre[i] == ws[i];
        }
      }
    }
  }

  /** Every widget is recorded under its id; the last widget with an id is the one kept. */
  lemma {:induction false} WidgetMapLastWins(ws: seq<BottomWidget>, id: u64)
    ensures id in WidgetMapOf(ws) <==> exists i :: 0 <= i < |ws| && ws[i].widgetId == id
    ensures forall i :: 0 <= i < |ws| && ws[i].widgetId == id
                        && (forall j :: i < j < |ws| ==> ws[j].widgetId != id)
                        ==> WidgetMapOf(ws)[id] == ws[i]
  {
    if ws != [] {
      var pre := ws[..|ws| - 1];
      WidgetMapLastWins(pre, id);
      if exists i :: 0 <= i < |ws| && ws[i].widgetId == id {
        var i :| 0 <= i < |ws| && ws[i].widgetId == id;
        if i < |pre| {
          assert pre[i] == ws[i];
        }
      }
      forall i | 0 <= i < |ws| && ws[i].widgetId == id && (forall j :: i < j < |ws| ==> ws[j].widgetId != id)
        ensures WidgetMapOf(ws)[id] == ws[i]
      {
        if i < |pre| {
          assert pre[i] == ws[i];
          assert forall j :: i < j < |pre| ==> pre[j] == ws[j];
        }
      }
    }
  }

  /** The widget table maps each id to a widget of the walk that carries that id. */
  lemma {:induction false} WidgetMapKeys(ws: seq<BottomWidget>, id: u64)
    requires id in WidgetMapOf(ws)
    ensures WidgetMapOf(ws)[id].widgetId == id
    ensures exists i :: 0 <= i < |ws| && ws[i] == WidgetMapOf(ws)[id]
  {
    var pre := ws[..|ws| - 1];
    if ws[|ws| - 1].widgetId != id {
      WidgetMapKeys(pre, id);
      var i :| 0 <= i < |pre| && pre[i] == WidgetMapOf(pre)[id];
      assert ws[i] == pre[i];
    }
  }

  lemma {:induction false} TypesOfMembers(ws: seq<BottomWidget>, t: BottomWidgetType)
    ensures t in TypesOf(ws) <==> exists i :: 0 <= i < |ws| && ws[i].widgetType == t
  {
    if ws != [] {
      var pre := ws[..|ws| - 1];
      TypesOfMembers(pre, t);
      if exists i :: 0 <= i < |ws| && ws[i].widgetType == t {
        var i :| 0 <= i < |ws| && ws[i].widgetType == t;
        if i < |pre| {
          assert pre[i] == ws[i];
        }
      }
    }
  }

  /** The position of the last widget the default type selects, or -1. */
  function LastSelectedIndex(ws: seq<BottomWidget>, s: Selection): (k: int)
    ensures -1 <= k < |ws|
    ensures k >= 0 ==> Selects(s, ws[k])
    ensures forall j :: k < j < |ws| ==> !Selects(s, ws[j])
  {
    if ws == [] then -1
    else if Selects(s, ws[|ws| - 1]) then |ws| - 1
    else LastSelectedIndex(ws[..|ws| - 1], s)
  }

  lemma {:induction false} InitialAfterIsLastSelected(ws: seq<BottomWidget>, s: Selection)
    ensures var k := LastSelectedIndex(ws, s);
            InitialAfter(ws, s) ==
              if k < 0 then (s.defaultWidgetId, Proc) else (ws[k].widgetId, SelectedType(ws[k].widgetType))
  {
    if ws != [] && !Selects(s, ws[|ws| - 1]) {
      var pre := ws[..|ws| - 1];
      InitialAfterIsLastSelected(pre, s);
      var k := LastSelectedIndex(pre, s);
      if k >= 0 {
        assert pre[k] == ws[k];
      }
    }
  }

  /** The initial widget is the last widget in traversal order that the
      default type selects, and the reserved default (as Proc) when none does. */
  lemma InitialAfterLastMatch(ws: seq<BottomWidget>, s: Selection)
    ensures (forall i :: 0 <= i < |ws| ==> !Selects(s, ws[i])) ==>
              InitialAfter(ws, s) == (s.defaultWidgetId, Proc)
    ensures forall k :: 0 <= k < |ws| && Selects(s, ws[k]) && (forall j :: k < j < |ws| ==> !Selects(s, ws[j]))
              ==> InitialAfter(ws, s) == (ws[k].widgetId, SelectedType(ws[k].widgetType))
  {
    InitialAfterIsLastSelected(ws, s);
    var last := LastSelectedIndex(ws, s);
    forall k | 0 <= k < |ws| && Selects(s, ws[k]) && (forall j :: k < j < |ws| ==> !Selects(s, ws[j]))
      ensures k == last
    {
      assert last >= k;
      assert last <= k;
    }
  }

  /** When the initial id is in the widget table, the widget found there was
      walked, carries that id, and is the last selected one, if any was. */
  lemma InitialWidgetFound(ws: seq<BottomWidget>, s: Selection)
    requires InitialAfter(ws, s).0 in WidgetMapOf(ws)
    ensures var id := InitialAfter(ws, s).0; var w := WidgetMapOf(ws)[id];
            && w.widgetId == id
            && (exists i :: 0 <= i < |ws| && ws[i] == w)
            && var k := LastSelectedIndex(ws, s);
               id == if k < 0 then s.defaultWidgetId else ws[k].widgetId
  {
    InitialAfterIsLastSelected(ws, s);
    WidgetMapKeys(ws, InitialAfter(ws, s).0);
  }

  /** The initial id is missing from the widget table only when nothing was
      selected and no widget carries the default id. */
  lemma InitialMissing(ws: seq<BottomWidget>, s: Selection)
    requires InitialAfter(ws, s).0 !in WidgetMapOf(ws)
    ensures InitialAfter(ws, s).0 == s.defaultWidgetId
    ensures forall i :: 0 <= i < |ws| ==> !Selects(s, ws[i]) && ws[i].widgetId != s.defaultWidgetId
  {
    InitialAfterIsLastSelected(ws, s);
    WidgetMapLastWins(ws, InitialAfter(ws, s).0);
  }

  /** Without a default type, or with a custom layout outside basic mode,
      the initial widget is never moved. */
  lemma InitialWidgetUnchanged(ws: seq<BottomWidget>, s: Selection)
    requires !SelectionApplies(s)
    ensures InitialAfter(ws, s) == (s.defaultWidgetId, Proc)
  {
    InitialAfterLastMatch(ws, s);
  }

  /** Selected through an alias, the recorded type is Cpu, whichever alias it was. */
  lemma AliasSelectionRecordsCpu(id: u64, alias: BottomWidgetType, full: BottomWidgetType, s: Selection)
    requires (alias, full) in {(BasicCpu, Cpu), (BasicMem, Mem), (BasicNet, Net)}
    requires s.defaultWidgetType == Some(full) && SelectionApplies(s)
    ensures InitialAfter([BottomWidget(alias, id)], s) == (id, Cpu)
  {
    var ws := [BottomWidget(alias, id)];
    assert ws[..0] == [];
  }

  /** In any walk, when the last selecting widget is a basic alias, the
      focus records that widget's id with the type Cpu. */
  lemma AliasFocusRecordsCpu(ws: seq<BottomWidget>, s: Selection)
    ensures var k := LastSelectedIndex(ws, s);
            k >= 0 && ws[k].widgetType in {BasicCpu, BasicMem, BasicNet} ==>
              InitialAfter(ws, s) == (ws[k].widgetId, Cpu)
  {
    InitialAfterIsLastSelected(ws, s);
  }

  predicate UniqueIds(ws: seq<BottomWidget>) {
    forall i, j :: 0 <= i < j < |ws| ==> ws[i].widgetId != ws[j].widgetId
  }

  lemma UniqueIdStateMap<S>(ws: seq<BottomWidget>, t: BottomWidgetType, s: S, i: nat)
    requires UniqueIds(ws) && i < |ws|
    ensures ws[i].widgetId in StateMap(ws, t, s) <==> ws[i].widgetType == t
    ensures ws[i].widgetId in StateMap(ws, t, s) ==> StateMap(ws, t, s)[ws[i].widgetId] == s
  {
    StateMapMembers(ws, t, s, ws[i].widgetId);
  }

  /** With distinct ids, each widget of one of the seven data kinds has
      exactly one state, in its own kind's table; aliases and auxiliary tags
      have none; and the widget table maps the id back to the widget. */
  lemma EachWidgetOneState(ws: seq<BottomWidget>, p: WalkParams, i: nat)
    requires UniqueIds(ws) && i < |ws|
    ensures var t, w := TablesAfter(ws, p), ws[i];
            && (w.widgetId in t.cpuStates <==> w.widgetType == Cpu)
            && (w.widgetId in t.memStates <==> w.widgetType == Mem)
            && (w.widgetId in t.netStates <==> w.widgetType == Net)
            && (w.widgetId in t.procStates <==> w.widgetType == Proc)
            && (w.widgetId in t.diskStates <==> w.widgetType == Disk)
            && (w.widgetId in t.tempStates <==> w.widgetType == Temp)
            && (w.widgetId in t.batteryStates <==> w.widgetType == Battery)
            && (w.widgetId in t.cpuStates ==> t.cpuStates[w.widgetId] == CpuStateFor(p))
            && (w.widgetId in t.memStates ==> t.memStates[w.widgetId] == MemStateFor(p))
            && (w.widgetId in t.netStates ==> t.netStates[w.widgetId] == NetStateFor(p))
            && (w.widgetId in t.procStates ==>
                  t.procStates[w.widgetId].mode == ProcMode(p.isGrouped, p.isDefaultTree)
                  && t.procStates[w.widgetId].tableConfig == p.tableConfig)
            && w.widgetId in t.widgetMap && t.widgetMap[w.widgetId] == w
  {
    UniqueIdStateMap(ws, Cpu, CpuStateFor(p), i);
    UniqueIdStateMap(ws, Mem, MemStateFor(p), i);
    UniqueIdStateMap(ws, Net, NetStateFor(p), i);
    UniqueIdStateMap(ws, Proc, ProcStateFor(p), i);
    UniqueIdStateMap(ws, Disk, DiskTableWidget(p.fields), i);
    UniqueIdStateMap(ws, Temp, TempWidgetState(p.fields), i);
    UniqueIdStateMap(ws, Battery, BatteryWidgetState, i);
    WidgetMapLastWins(ws, ws[i].widgetId);
  }

  /** The families reported as used are those of the widgets in the walk. */
  lemma UsedWidgetsOfWalk(ws: seq<BottomWidget>, enableCacheMemory: bool, gpuEnabled: bool)
    ensures var u := UsedWidgetsOf(TypesOf(ws), enableCacheMemory, gpuEnabled);
            && (u.useCpu <==> exists i :: 0 <= i < |ws| && ws[i].widgetType in {Cpu, BasicCpu})
            && (u.useMem <==> exists i :: 0 <= i < |ws| && ws[i].widgetType in {Mem, BasicMem})
            && (u.useNet <==> exists i :: 0 <= i < |ws| && ws[i].widgetType in {Net, BasicNet})
            && (u.useProc <==> exists i :: 0 <= i < |ws| && ws[i].widgetType == Proc)
            && (u.useDisk <==> exists i :: 0 <= i < |ws| && ws[i].widgetType == Disk)
            && (u.useTemp <==> exists i :: 0 <= i < |ws| && ws[i].widgetType == Temp)
            && (u.useBattery <==> exists i :: 0 <= i < |ws| && ws[i].widgetType == Battery)
            && (u.useCache <==> u.useMem && enableCacheMemory)
  {
    forall t | true ensures t in TypesOf(ws) <==> exists i :: 0 <= i < |ws| && ws[i].widgetType == t {
      TypesOfMembers(ws, t);
    }
  }
}
