# Start-up options of bottom, modelled in Dafny

This project models `src/options.rs` of bottom, a terminal system monitor. It covers the code that turns a parsed
configuration record (`ConfigV2`, command-line flags merged with the TOML file) into the application's starting state.
The pieces are:

- **The millisecond options.** `try_parse_ms` accepts a human duration ("1 min") first and a plain unsigned 64-bit
  number second. `get_duration` applies a default, a lower bound and an optional upper bound. It is used for the
  update rate, the default time window and the time step. The retention is parsed the same way but has no bounds.
- **The validators.**
  - the temperature unit (flags first, then a named unit);
  - the default widget type and its count;
  - the cache-memory switch;
  - the four ignore lists, each compiled to a list of regular expressions;
  - the colour scheme;
  - the process table's column set.
- **`get_widget_layout`.** It picks the basic template, the user's `[[row]]` list or the default rows. It converts
  the rows one after the other while the converter threads its counters. It refuses a layout whose converted rows
  hold no widget. The converter's id counter decides this, so it is proved for a converter whose counter counts the
  widgets it hands out.
- **`init_app`.**
  - It validates the durations and the temperature unit in the order the code does.
  - It builds the global configuration fields.
  - It walks every widget of the layout (rows, columns, column rows, widgets) to fill the widget map and one state
    table per widget kind, and to pick the widget that has focus at start-up.
  - It derives the basic-mode tab container and the set of data families to poll.
  - It compiles the four filters, each error carrying the hint that names its option.
  - It looks the focused widget up in the widget map.

The modules follow that structure:

| file | module | contents |
|---|---|---|
| `results.dfy` | `Results` | `Option` and a failure-compatible `Result` |
| `config.dfy` | `Config` | the configuration record, the error kinds, the layout types, the platform switches and the external collaborators |
| `durations.dfy` | `Durations` | `try_parse_ms`, `get_duration` and its four call sites |
| `validators.dfy` | `Validators` | temperature, default widget, cache memory, ignore lists, colour scheme, process columns |
| `widget_layout.dfy` | `WidgetLayout` | `get_widget_layout` as a method with its row loop, proved against a specification function |
| `widget_states.dfy` | `WidgetStates` | the configuration fields, the per-widget state records, the basic table container, the used data families |
| `widget_walk.dfy` | `WidgetWalk` | the four nested widget loops of `init_app`, as methods proved against a fold over the traversal order, with lemmas about the tables |
| `app.dfy` | `AppInit` | `init_app` as a method proved against `InitAppSpec`, and the start-up properties |

Code the model cannot see is passed in as functions in a `Collaborators` record:

- the human-duration parser (`humantime::parse_duration`, giving milliseconds or nothing);
- `regex::escape`, and whether `Regex::new` accepts a pattern;
- the widget-type and colour-scheme name parsers;
- the row converter `convert_row_to_bottom_row`;
- the basic template and the default rows.

Compile-time features and the operating system are booleans of `Platform`: Windows, the `gpu` feature, and the
battery decision.

Errors are structured values of `ConfigError` rather than message texts. `Context(hint, inner)` stands for an
error carrying an attached hint. The `unwrap` of the focused widget's lookup, which panics in the code, is the
error `MissingInitialWidget(id)`.

The constants `DEFAULT_REFRESH_RATE_IN_MILLISECONDS` (250), `DEFAULT_TIME_MILLISECONDS` (60000),
`TIME_CHANGE_MILLISECONDS` (15000) and `DEFAULT_WIDGET_ID` (56709) are defined in the program's constants module,
which is not part of this model. These four values are assumed, not taken from the program's text. Every bound
written in `src/options.rs` itself (250, 30000, 1000, the ten-minute retention, the container id 100) is taken
from there.

The documented invariant says the default time window never exceeds the retention, but the code only checks an
explicitly given window. The model follows the code: an absent `default_time_value` yields 60000 ms whatever the
retention is (`Durations.AbsentDefaultTimeValueIsUnchecked`).

## Model

| member | source | states |
|---|---|---|
| `Durations.TryParseMs` | src/options.rs:404-415 | A human duration wins; it is accepted exactly when its millisecond count fits in 64 bits, otherwise the result is an overflow error. Only when it is not a human duration is the text read as a plain `u64`; failing both gives a parse error. |
| `Durations.Decimal` | src/options.rs:407 | The decimal rendering of a number is a non-empty digit string without a leading zero. |
| `Durations.DigitChar` | src/options.rs:407 | Each digit value maps to an ASCII digit. |
| `Durations.DigitsValueOfDecimal` | src/options.rs:407 | Reading back the decimal rendering gives the number again (round trip of the digit reader). |
| `Durations.ParseU64Decimal` | src/options.rs:407 | `parse::<u64>` accepts every 64-bit value's decimal text, with or without a leading `+`, and returns that value. |
| `Durations.ParseU64RejectsNonDigit` | src/options.rs:407 | A non-digit anywhere after the optional sign makes `parse::<u64>` fail. |
| `Durations.ParseU64RejectsMinus` | src/options.rs:407 | A leading minus sign makes `parse::<u64>` fail. |
| `Durations.PlainNumberFallback` | src/options.rs:407-408 | A plain number that the human parser does not take is accepted as itself. |
| `Durations.TryParseMsExamples` | src/options.rs:691-707 | "100s", "100", "1 min" and "1 hour 1 min" give 100000, 100, 60000 and 3660000; "1 test" and "-100" are refused. |
| `Durations.GetDuration` | src/options.rs:417-446 | An absent value gives the default. A parse error passes through. A present value is accepted exactly when it lies within the bounds, and is then returned unchanged. The lower bound is checked before the upper one, and each violation names the option and the bound. |
| `Durations.GetDurationBounds` | src/options.rs:427-441 | An accepted present value lies within both bounds; crossed bounds accept nothing. |
| `Durations.GetUpdateRate` | src/options.rs:448-456 | The rate is at least 250 ms, has no upper bound and defaults to 250 ms. |
| `Durations.GetDefaultTimeValue` | src/options.rs:479-487 | A given window is accepted exactly when it lies in [30000, retention]; an absent one gives 60000. |
| `Durations.GetTimeInterval` | src/options.rs:489-497 | A given step is accepted exactly when it lies in [1000, retention]; an absent one gives 15000. |
| `Durations.GetRetention` | src/options.rs:628-639 | An absent retention gives ten minutes. A given one is the parsed value, unbounded, and fails only when parsing fails. |
| `Durations.AbsentDefaultTimeValueIsUnchecked` | src/options.rs:479-487 | With no window given, the 60000 ms default is returned even when the retention is only 10000 ms. |
| `Durations.ConfigTimesExamples` | src/options.rs:750-816 | The human-text and numeric configurations of the tests give 120000, 300000, 1000 and 600000 for step, window, rate and retention. |
| `Durations.NumberTextExample` | src/options.rs:730-738 | The text "120000" as a time step is read as a plain number and gives 120000 ms. |
| `Validators.TemperatureNames` | src/options.rs:466-469 | The names "celsius"/"c", "fahrenheit"/"f" and "kelvin"/"k" are recognised, and nothing else is. |
| `Validators.GetTemperature` | src/options.rs:458-477 | The Celsius, Fahrenheit and Kelvin flags take precedence in that order. Otherwise a named unit is parsed, an unknown name being an error, and Celsius is the default. |
| `Validators.TemperatureErrorsOnlyFromName` | src/options.rs:458-477 | The unit fails exactly when no flag is set and the configured name is not recognised. |
| `Validators.TemperatureExamples` | src/options.rs:666-688 | The default is Celsius; the Kelvin flag and the name "kelvin" both give Kelvin. |
| `Validators.GetDefaultWidgetAndCount` | src/options.rs:499-526 | An unknown type name is an error. A type with no count gets count 1. A count without a type is refused. Neither given gives no type and count 1. |
| `Validators.DefaultCountNeedsType` | src/options.rs:516-525 | Whenever no type is returned, no count was given and the count is 1. |
| `Validators.GetEnableCacheMemory` | src/options.rs:549-558 | Cache memory is on exactly when not on Windows and the option is set to true. |
| `Validators.IgnorePatternParts` | src/options.rs:566-580 | A pattern is `^` when whole-word, then `(?i)` when case-insensitive, then the name (escaped unless it is a regex), then `$` when whole-word. |
| `Validators.IgnorePatternInjective` | src/options.rs:566-580 | Distinct names give distinct patterns, provided escaping keeps them distinct. |
| `Validators.CompileEntries` | src/options.rs:561-586 | Compilation succeeds exactly when every name's pattern compiles, with the patterns in input order. On failure the error is the first pattern that does not compile. |
| `Validators.GetIgnoreList` | src/options.rs:560-595 | An absent list gives no filter. A present list gives a filter with one pattern per name and the list's ignore flag, exactly when all the patterns compile. Otherwise the error names the first pattern that does not compile. |
| `Validators.IgnoreListExample` | src/options.rs:560-595 | A whole-word, case-insensitive, literal "abc" becomes `^(?i)` + escape("abc") + `$`. |
| `Validators.GetColorScheme` | src/options.rs:598-626 | A named scheme is parsed, an unknown name being an error. `Custom` is accepted only with a non-empty colour table. With no name, a non-empty table means `Custom` and anything else means `Default`. |
| `Validators.CustomNeedsColours` | src/options.rs:598-626 | The scheme is `Custom` exactly when the colour table is non-empty and either no scheme or `Custom` is named. |
| `Validators.InsertAll` | src/options.rs:92-105 | Inserting into an index set keeps it duplicate-free, keeps its prefix, and holds exactly the old and new columns. |
| `Validators.FirstOccurrencesOfDistinct` | src/options.rs:100 | The first-occurrence order of a list without repeats is the list itself. |
| `Validators.FirstOccurrencesDropsRepeat` | src/options.rs:100 | A column that already occurred earlier does not change the first-occurrence order, wherever it stands. |
| `Validators.NoDuplicatesSnoc` | src/options.rs:100 | Adding a column that is not yet present keeps the index set duplicate-free. |
| `Validators.InsertAllIsFirstOccurrences` | src/options.rs:100 | Inserting a sequence into an index set in order gives the first occurrences of the old contents followed by the sequence. |
| `Validators.IndexSetFromIter` | src/options.rs:100 | The index set holds each column of the input exactly once, at its first occurrence, in input order (`FirstOccurrences`, a reference definition written from the end of the list). |
| `Validators.InsertAllDistinct` | src/options.rs:92-105 | Inserting columns that are all new appends them in order. |
| `Validators.ProcColumns` | src/options.rs:92-105 | The columns are present exactly when a non-empty list is given. They are then that list's columns, without repeats, each at its first occurrence in input order. |
| `Validators.ProcColumnsExample` | src/options.rs:92-105 | `cpu, pid, cpu, mem` gives the columns `cpu, pid, mem`. |
| `Validators.ProcColumnsDistinct` | src/options.rs:92-105 | A duplicate-free list is kept as it is, order included. |
| `WidgetLayout.ConvertRows` | src/options.rs:369-384 | Each row converts with the counters the previous row left. A successful conversion has one result row per source row, and no rows leaves the counters untouched. |
| `WidgetLayout.GetWidgetLayout` | src/options.rs:340-402 | The method's row loop, which threads the id, height, default-id and count counters, computes exactly `WidgetLayoutSpec`. |
| `WidgetLayout.BasicModeForcesDefaultId` | src/options.rs:348-351 | In basic mode the basic template is used with the reserved default id, and the call fails only if the default widget option is invalid. |
| `WidgetLayout.CountWithoutTypeRejected` | src/options.rs:345 | A count without a type fails before any layout is looked at. |
| `WidgetLayout.CustomLayoutNotEmpty` | src/options.rs:354-397 | Outside basic mode an accepted layout has one row per source row and at least one row, so an empty row list is refused. A row list whose rows hold no widget is covered by `WidgetLayout.EmptyLayoutRefused`. |
| `WidgetLayout.ConvertRowsKeepsDefaultId` | src/options.rs:369-384 | A converter that never moves the default id leaves it unchanged over all the rows. |
| `WidgetLayout.DefaultIdStartsAtOne` | src/options.rs:346 | Outside basic mode, when no row marks a default widget, the default id returned is 1. |
| `WidgetLayout.RowsWidgetsCons` | src/options.rs:369-384 | The widgets of a row list are those of its first row followed by those of the rest. |
| `WidgetLayout.ConvertRowsCountsWidgets` | src/options.rs:369-384 | With a converter whose id counter counts widgets, the counter after all the rows is its start value plus the number of widgets converted. |
| `WidgetLayout.EmptyLayoutRefused` | src/options.rs:389-397 | Outside basic mode, with a widget-counting converter, an accepted layout holds at least one widget. Converted rows are accepted exactly when they hold a widget, and rows without a widget give the empty-layout error. |
| `WidgetStates.ProcMode` | src/options.rs:209-217 | A process widget is grouped exactly when grouping is on. It is a tree exactly when grouping is off and tree mode is on. A tree starts with nothing collapsed. |
| `WidgetStates.BasicTableState` | src/options.rs:253-276 | A container exists exactly in basic mode and carries id 100 and no click regions. It shows the initial widget when that is a process, disk or temperature table, and the reserved process table otherwise. |
| `WidgetStates.UsedWidgetsOf` | src/options.rs:278-298 | CPU, memory and network are polled when the full or basic widget is used. Cache is polled when memory is used and cache is enabled, and GPU per its switch. The other families are polled exactly when their widget is used. |
| `WidgetWalk.ChooseInitial` | src/options.rs:150-179 | A widget selects the focus only when the layout is not custom or basic mode is on, and it matches the default type. A basic alias counts for its full type. The focus type recorded is then Cpu for every basic alias. |
| `WidgetWalk.AddState` | src/options.rs:183-247 | A widget's id gets a state in its kind's table, built from the shared settings. Every other table is unchanged. |
| `WidgetWalk.VisitWidget` | src/options.rs:149-247 | One visit extends the tables from the widgets before it to those widgets plus this one. |
| `WidgetWalk.TablesAfterSnoc` | src/options.rs:149-247 | A bridge lemma taking one step of the `TablesAfter` fold: one widget more updates the widget map, the type set, the focus choice and its own kind's table, and nothing else. The loop-body property it supports is stated by `WidgetWalk.VisitWidget`. |
| `WidgetWalk.CollectColRow` | src/options.rs:148-249 | The innermost loop visits a column row's widgets in order. |
| `WidgetWalk.CollectCol` | src/options.rs:147-250 | The column loop visits a column's column rows in order. |
| `WidgetWalk.CollectRow` | src/options.rs:146-250 | The row-children loop visits a row's columns in order. |
| `WidgetWalk.CollectWidgets` | src/options.rs:145-251 | The four nested loops give exactly the tables of the fold over all widgets in layout order. They start from empty tables, the given default id and type Proc. |
| `WidgetWalk.StateMapMembers` | src/options.rs:183-247 | An id has a state in a kind's table exactly when some widget of that kind carries it, and the state is the kind's shared one. |
| `WidgetWalk.WidgetMapLastWins` | src/options.rs:149 | An id is in the widget map exactly when some widget carries it, and the last widget carrying it is the one stored. |
| `WidgetWalk.WidgetMapKeys` | src/options.rs:149 | The widget stored under an id carries that id and occurs in the layout. |
| `WidgetWalk.TypesOfMembers` | src/options.rs:181 | A type is in the used set exactly when some widget has it. |
| `WidgetWalk.LastSelectedIndex` | src/options.rs:150-179 | The index found is the last widget that selects the focus, or -1 when none does. |
| `WidgetWalk.InitialAfterIsLastSelected` | src/options.rs:71-72 | The focus is that of the last selecting widget, or the given default id with type Proc when no widget selects. |
| `WidgetWalk.InitialAfterLastMatch` | src/options.rs:150-179 | With no selecting widget the default stays. Otherwise, whichever selecting widget has no selecting widget after it decides the focus. |
| `WidgetWalk.InitialWidgetFound` | src/options.rs:320 | When the focus id is in the widget map, the widget found carries that id and occurs in the layout. The id is the last selecting widget's, or the default. |
| `WidgetWalk.InitialMissing` | src/options.rs:320 | The focus lookup fails only when no widget selects and no widget carries the default id. |
| `WidgetWalk.InitialWidgetUnchanged` | src/options.rs:151-152 | With no default type, or with a custom layout outside basic mode, the focus stays at the default id with type Proc. |
| `WidgetWalk.AliasSelectionRecordsCpu` | src/options.rs:153-170 | In a one-widget walk, a basic CPU, memory or network widget selected through its full type records the type Cpu. |
| `WidgetWalk.AliasFocusRecordsCpu` | src/options.rs:153-170 | In any walk, when the last selecting widget is a basic CPU, memory or network widget, the focus is that widget's id with the type Cpu. |
| `WidgetWalk.UniqueIdStateMap` | src/options.rs:183-247 | With distinct ids, a widget has a state in a kind's table exactly when it is of that kind. |
| `WidgetWalk.EachWidgetOneState` | src/options.rs:145-251 | With distinct ids, each widget has a state in exactly its own kind's table, and is stored under its id in the widget map. A process state's mode follows the grouping and tree options. |
| `WidgetWalk.UsedWidgetsOfWalk` | src/options.rs:278-298 | Each polled data family matches the presence of its widgets in the layout. |
| `AppInit.ValidatedFields` | src/options.rs:39-135 | Retention is validated first and its error carries the retention hint. Then come the window, the rate, the temperature unit and the step: the first of these that fails gives the result's error. The fields succeed exactly when all five do. They then hold the values those validators return, and so keep their bounds and defaults. |
| `AppInit.CompileFilters` | src/options.rs:300-307 | The disk, mount, temperature and network filters are compiled in that order. The first failure is reported with its option's hint, and success means all four compiled. |
| `AppInit.InitApp` | src/options.rs:33-337 | The start-up method, with the nested widget loops, computes exactly `InitAppSpec`: validation, walk, filters, focus lookup. |
| `AppInit.InitAppStages` | src/options.rs:33-337 | A bridge lemma unfolding `InitAppSpec` and `Assemble`; the properties it supports are stated by the other `AppInit.InitApp*` lemmas. A successful start-up carries the validated fields and compiled filters. Its widget map, states and used families come from the walk, with the focus found in the map. It starts expanded exactly when asked and not in basic mode. |
| `AppInit.InitAppDurations` | src/options.rs:39-135 | The started app's rate is at least 250 ms. An explicit window and step lie within their bounds and are at most the retention. The retention defaults to ten minutes. The table gap is 0 exactly when hidden. |
| `AppInit.InitAppExpanded` | src/options.rs:327 | The app starts expanded exactly when expansion is requested and basic mode is off. |
| `AppInit.InitAppCurrentWidget` | src/options.rs:320 | The focused widget is a widget of the layout and is stored under its own id. |
| `AppInit.InitAppInitialSelection` | src/options.rs:145-179 | The focused widget's id is that of the last widget selected by the default type, or the default id when none is selected. |
| `AppInit.InitAppMissingWidget` | src/options.rs:320 | Start-up fails on the focus lookup only for the default id, and only when no widget is selected and none carries that id. |
| `AppInit.InitAppWidgetStates` | src/options.rs:183-247 | With distinct ids, each widget has a state in exactly its kind's table. A process state's mode follows the options, and a CPU state uses the validated window. |
| `AppInit.InitAppUsedWidgets` | src/options.rs:278-298 | The started app polls each data family exactly when a widget of that family is in the layout. Cache and GPU also need their switches. |
| `AppInit.InitAppBasicTable` | src/options.rs:253-276 | In basic mode, and only then, there is a container with id 100 showing a table widget. Take the type recorded by the last widget the default type selects, or Proc when none is selected. When that type is a process, disk or temperature table, the container shows it under the focused widget's id. Otherwise it shows the reserved process table. |

## Left out

- `WidgetLayout.DefaultIdStartsAtOne`: proved only for a row converter that never moves the default id. The converter is external code, so its own marking of a default widget is not modelled.
- `WidgetLayout.EmptyLayoutRefused`: proved only for a row converter whose id counter goes up by one per widget it returns. The converter is external code, so that counting is a hypothesis rather than a proved fact. With an arbitrary converter the model refuses exactly when the counter stays at 0.
- `WidgetWalk.EachWidgetOneState` and `AppInit.InitAppWidgetStates`: stated only for layouts with distinct widget ids. With repeated ids the code's maps keep the last insert, and `WidgetWalk.StateMapMembers` states that general case.
- `humantime::parse_duration` is an input function. Its grammar is not modelled; only its result in milliseconds is. The `u128` to `u64` conversion of that result is modelled as the `DurationOverflow` error.
- `regex::escape` and `Regex::new` are input functions. The regular expression language is not modelled, and a compiled filter is represented by its pattern text.
- `get_use_battery` asks the battery manager at run time (I/O), so its result is the `Platform.useBattery` input.
- `cfg` feature and target switches are the `Platform` booleans rather than compile-time branches.
- `Instant::now()` for the autohide timer is recorded only as whether a timer was started.
- `CanvasStyling` and the internals of the state constructors and the `*State::init` wrappers are not modelled. A state record keeps the arguments it is given.
- The TOML parse of the built-in default layouts is not modelled. The default rows are an input function, which assumes, as the code's comment does, that this parse cannot fail.
- `convert_row_to_bottom_row` and `get_movement_mappings` are external code. The converter is an input function, and the movement mappings are not computed.
- The widget-type and colour-scheme name parsers (`FromStr`) are input functions. The named colour palettes are not modelled.
- Error texts are not reproduced: each error is a structured `ConfigError` value. How an attached hint is rendered is not modelled.
- `HashMap` and `HashSet` are Dafny maps and sets. The order-preserving `IndexSet` is a duplicate-free sequence in first-occurrence order.
- The test helpers that build configurations from command-line arguments, `create_app` and `verify_cli_options_build` drive the argument parser and are not modelled.
- The other files of the repository (the argument parser, the configuration file types, the layout manager, the widget states, drawing, data collection) are not part of this model.
