# Glance and Learn: verified model of the overlay, table and import logic

Glance and Learn is a desktop vocabulary trainer built with Electron and React. The
user imports rows of a spreadsheet into a database. A small always-on-top window, the
"sticky" overlay, then cycles through those rows on a timer, sequentially or in random
order. Each row is shown either on one line (`{id}. ` followed by the shown columns
joined by a separator) or one line per column, optionally with furigana added by
Kuroshiro. A table view lets the user choose which columns the overlay shows, which
columns can be read aloud and with which voice, and mark rows as memorized. A
settings tab clamps the font size and the interval, and reloads the overlay whenever
a setting changes.

This project models that logic in Dafny and proves what the code promises:

- `sticky.dfy` (module `Sticky`): the overlay page. It covers the tick rule for the
  record counter, the single interval timer and its start, pause and effect cleanup,
  and `processText`, which filters the values of the current row and assembles the
  display lines. The class `Overlay` holds the page state the code mutates.
- `data_table.dfy` (module `DataTable`): the record table. It covers the header names
  derived from key positions, the initial per-column settings, the show, speech and
  voice updates, the optimistic "memorized" update and `handleSpeak`. The class
  `Table` holds the component state and the stored settings.
- `excel_import.dfy` (module `ExcelImport`): reading a worksheet into records. It
  covers the column names, one record per sheet row, the cell-to-HTML serialiser and
  the font-to-CSS builder.
- `create_db_modal.dfy` (module `CreateDbModal`): the import form record, its default
  value, the "name already used" check and the form-validity predicate.
- `settings_tab.dfy` (module `SettingsTab`): the font-size and interval clamps, the
  selected-database guard, and the class `Panel`, whose handlers update the settings
  store and reload the overlay.
- `utils.dfy` (module `Utils`): the in-place Fisher–Yates `shuffleArray`.
- Shared modules:
  - `wrappers.dfy` holds `Option` and `Result`.
  - `strings.dfy` holds decimal printing, `join` and JavaScript `trim`.
  - `records.dfy` models a JavaScript object as an ordered list of key/value pairs,
    with `Object.keys`, `Object.values`, lookup and `{...row, key: v}`.
  - `random_index.dfy` holds `Math.floor(r * m)`.
  - `global_store.dfy` holds the `isShowSticky` flag and `toggleShowSticky`. The
    class `Store` counts the toggles, so reload contracts can say how often the
    overlay was hidden and shown.

External services are parameters:
- Each `Math.random()` result is a real in [0, 1) supplied by the caller. The shuffle
  takes a function giving the k-th such value.
- Kuroshiro's `convert` is a partial function on strings: `None` when its promise
  rejects. The whole converter is `None` while Kuroshiro is not initialised.
- `speechSynthesis.getVoices()` is a list passed in. `handleSpeak` returns the calls
  it makes on `speechSynthesis`.
- `localStorage` entries are values passed in or fields of the classes. `JSON.parse`
  is a partial function.
- The worksheet is a value whose `getRows` and `getCell` are functions.

### Behaviour modelled as written

The model keeps each of these as the code does it:
- `renderer/pages/sticky.tsx:43` reads the shown columns as numbers under
  `SHOWN_COLUMNS`. `renderer/components/DataTable.tsx:212,275` writes settings
  objects under `COLUMN_SETTINGS`, which `renderer/const.ts:3-5` does not define.
  The table therefore reads and writes the entry keyed `undefined`, and nothing in
  the modelled code writes `SHOWN_COLUMNS`. `Sticky.Overlay.LoadShownColumns` takes
  the stored string as an input. `DataTable.Table` keeps its own `stored` field.
- `renderer/helpers/readDataFromExcel.ts:16` looks the worksheet up by
  `dataSet.sheetNumber`, which the form record does not declare. At run time the key
  is `undefined`, and the sheet name the user entered is never used. The missing-sheet
  error therefore reads `Worksheet undefined not found`. `ExcelImport.ReadData` takes
  the lookup's result as an input and produces exactly that message.
- In break-line mode `processText` turns every kept value into a line with
  `String(value)`, so an empty string gives an empty line and `null` gives `null`.
  In joined mode, `join` prints `null` as the empty string.
- The data listener replaces the data and leaves the counter as it is
  (`Sticky.Overlay.SetData`). When the counter is past the end of the new data,
  `processText` finds no row and keeps the old lines.
- `startInterval` builds its callback from the `data.length`,
  `stickyWindow.isRandom` and `stickyWindow.interval` of the render that started it,
  and every tick uses those values (`Sticky.Timer`).
- When there is data, the interval effect starts the timer and returns
  `pauseInterval` as its cleanup. The next run therefore pauses first, and it does
  not restart the timer when the data has become empty
  (`Sticky.Overlay.IntervalEffect`). The mouse-leave handler calls `startInterval`
  without looking at the data.

## Model

| member | source | states |
|---|---|---|
| Sticky.SequentialNext | renderer/pages/sticky.tsx:184-186 | wraps to 0 exactly when `prev >= len - 1`, otherwise `prev + 1`; for `len > 0` and `prev >= 0` the result is a valid index |
| Sticky.RandomCounter | renderer/pages/sticky.tsx:171-173 | `floor(r * max)` for r in [0, 1) is an index below `max` when `max > 0`, and 0 when `max` is 0 |
| Sticky.SequentialTicksCountUp | renderer/pages/sticky.tsx:184-186 | starting from 0, the k-th sequential tick sits at index k for every k below the length; `SequentialTicks` is k applications of `SequentialNext` from a start index |
| Sticky.SequentialTicksCompose | renderer/pages/sticky.tsx:184-186 | a + b ticks are a ticks followed by b ticks |
| Sticky.SequentialCycle | renderer/pages/sticky.tsx:184-186 | the first `len` ticks from 0 visit 0, 1, …, len-1, each once and in order; tick `len` is back at 0; and the sequence then repeats with period `len` |
| Sticky.KeptPositions | renderer/pages/sticky.tsx:95-97 | the kept positions are all below the number of values |
| Sticky.KeptPositionsSpec | renderer/pages/sticky.tsx:95-97 | a position is kept if and only if it is listed in the shown columns, and kept positions are strictly ascending (original order, no duplicates) |
| Sticky.FilterByPositionSelects | renderer/pages/sticky.tsx:95-97 | the filter yields exactly the values at the kept positions, in order; `FilterByPosition` is the `filter((_, i) => shown.includes(i))` call |
| Sticky.KeepShown | renderer/pages/sticky.tsx:84-98 | with an empty shown-column list every value is kept |
| Sticky.KeepShownCharacterised | renderer/pages/sticky.tsx:81-98 | an empty list keeps all values (id and creation time included); a non-empty one keeps exactly the values at listed positions, in original order |
| Sticky.Transliterate | renderer/pages/sticky.tsx:105-113 | the result is the converted text when furigana is on, Kuroshiro is ready and conversion succeeds; a rejected conversion, furigana off or no Kuroshiro leaves the text unchanged |
| Sticky.AssembleLines | renderer/pages/sticky.tsx:81-130 | break-line mode gives one line per kept value, in order, none omitted, each the value's text transliterated on its own; otherwise exactly one line, `{id}. ` + the kept values joined by the separator, transliterated once as a whole; `IdText` is `${id}` for the first unfiltered value (`undefined` for an empty row), and each value prints through `ValueToString` (`String(value)`); `DisplaysRow` states these lines for a row and the overlay's settings |
| Sticky.Overlay.constructor | renderer/pages/sticky.tsx:22-38 | the page starts with no data, counter 0, no timer and no lines |
| Sticky.Overlay.LoadShownColumns | renderer/pages/sticky.tsx:40-52 | the shown columns become the parsed stored list when an entry exists, is non-empty and parses; any other case leaves the empty list |
| Sticky.Overlay.SetData | renderer/pages/sticky.tsx:25-32 | the data becomes the selected database's rows and nothing else changes (the counter is kept) |
| Sticky.Overlay.StartInterval | renderer/pages/sticky.tsx:175-189 | the old timer is cleared and exactly one new timer runs, carrying the record count, order and period at start |
| Sticky.Overlay.PauseInterval | renderer/pages/sticky.tsx:191-197 | no timer is held or running afterwards, and the counter is untouched |
| Sticky.Overlay.Tick | renderer/pages/sticky.tsx:179-188 | a tick sets the counter to the random index or the sequential successor over the captured record count, so it stays a valid index |
| Sticky.Overlay.IntervalEffect | renderer/pages/sticky.tsx:200-205 | the previous cleanup pauses the timer; a new single timer is started only for non-empty data |
| Sticky.Overlay.ProcessText | renderer/pages/sticky.tsx:71-134 | empty data or no row at the counter leaves the lines unchanged; otherwise the lines are those `AssembleLines` specifies for the row at the counter; the lines satisfy `DisplaysRow` for that row |
| DataTable.ContentHeader | renderer/components/DataTable.tsx:162 | a content header is `Column ` followed by the decimal column number |
| DataTable.FixedHeaderPrefix | renderer/components/DataTable.tsx:151-160 | the ID, Memorized and Created At names never start like a content-column name |
| DataTable.HeaderNamesDistinct | renderer/components/DataTable.tsx:149-166 | two different key positions never get the same header name under `HeaderName` |
| DataTable.ColumnNames | renderer/components/DataTable.tsx:135-170 | empty data gives the single `default` entry; otherwise one entry per key of the first row, in key order: 0 is ID, 1 is Memorized, the last is Created At (checked in that order), and any other `i` is `Column (i-1)`; the names come from `HeaderName`, the switch of lines 151-164 |
| DataTable.BuildInitialSettings | renderer/components/DataTable.tsx:199-211 | one entry per key position `i` with `1 < i < n - 1`, in order, with index `i - 1`, shown, spoken and the first voice |
| DataTable.ToggleShow | renderer/components/DataTable.tsx:264-277 | showing a column without an entry appends `{i, shown, spoken, ""}`; otherwise the length is kept, only entries with index `i` change, and only their shown flag; whether an entry exists is `HasIndex`, the truthiness of `settings.find(s => s.index === i)` |
| DataTable.ToggleShowEffect | renderer/components/DataTable.tsx:264-277 | afterwards every entry for the column has the requested flag; showing guarantees an entry; hiding never adds one |
| DataTable.ToggleShowIdempotent | renderer/components/DataTable.tsx:264-277 | repeating the same toggle changes nothing more |
| DataTable.ToggleSpeech | renderer/components/DataTable.tsx:282-293 | the length is kept and only entries with index `i` change; their speech flag is set, and their voice is filled with the first available one only when enabling, with no voice set and at least one voice available |
| DataTable.ToggleSpeechKeepsVoices | renderer/components/DataTable.tsx:282-293 | disabling speech never changes a voice, and enabling never replaces a voice already set |
| DataTable.ChangeVoice | renderer/components/DataTable.tsx:302 | only entries with index `i` change, and only their voice |
| DataTable.ToggleRemember | renderer/components/DataTable.tsx:222-224 | rows with a different id are untouched; a matching row gets `isRemember` 1 or 0 as selected, keeps every other field and keeps its key order; `RememberFlag` is `isSelected ? 1 : 0` |
| DataTable.SkipTag | renderer/components/DataTable.tsx:235 | skipping the rest of a tag never lengthens the text |
| DataTable.StripTags | renderer/components/DataTable.tsx:235 | the cleaned text contains no `<`, is never longer, and a text without `<` is left as is |
| DataTable.StripTagsPlainPrefix | renderer/components/DataTable.tsx:235 | text before the first `<` is kept unchanged |
| DataTable.SkipTagClosed | renderer/components/DataTable.tsx:235 | `[^>]*>` consumes a tag body without `>` and the `>` closing it, and nothing after |
| DataTable.SkipTagUnclosed | renderer/components/DataTable.tsx:235 | with no `>` left, the tag runs to the end of the text |
| DataTable.StripTagsKeepsText | renderer/components/DataTable.tsx:235 | removing a closed tag keeps the text before it and the cleaned text after it, in order |
| DataTable.StripTagsUnclosed | renderer/components/DataTable.tsx:235 | an unclosed `<` removes the rest of the text and keeps what came before it |
| DataTable.StripTagsIdempotent | renderer/components/DataTable.tsx:235 | cleaning twice is cleaning once |
| DataTable.FindSettingPosition | renderer/components/DataTable.tsx:240 | `find` returns the first entry with the column index, and finds none exactly when there is none |
| DataTable.FindVoice | renderer/components/DataTable.tsx:243 | the voice found is in the list and has the URI; none is found exactly when no voice has it |
| DataTable.HandleSpeak | renderer/components/DataTable.tsx:228-250 | empty text makes no call; otherwise cancel comes before one speak of the tag-free text, and a voice is set exactly when the column's requested URI is non-empty and found in the voice list; the setting comes from `FindSetting`, the entry at `FindSettingPosition` |
| DataTable.Table.constructor | renderer/components/DataTable.tsx:114-120 | the table starts with no data, settings or voices and the given stored entry |
| DataTable.Table.LoadStoredSettings | renderer/components/DataTable.tsx:114-133 | stored settings, when present, replace the list, and the voices become those available |
| DataTable.Table.SetData | renderer/components/DataTable.tsx:185 | the data becomes the listed rows |
| DataTable.Table.ColumnSettingsEffect | renderer/components/DataTable.tsx:197-215 | the initial list is built, stored and used only when there is data, no setting yet and a voice; otherwise nothing changes |
| DataTable.Table.ReloadSticky | renderer/components/DataTable.tsx:252-260 | a shown overlay is hidden and shown again (two toggles, visibility unchanged); a hidden one is left alone |
| DataTable.Table.ToggleShowInSticky | renderer/components/DataTable.tsx:263-279 | the list becomes the show update of the old one, is stored, and the overlay is reloaded |
| DataTable.Table.ToggleSpeechInSticky | renderer/components/DataTable.tsx:281-298 | the list becomes the speech update of the old one, is stored, and the overlay is reloaded |
| DataTable.Table.VoiceChange | renderer/components/DataTable.tsx:300-307 | the list becomes the voice update of the old one, is stored, and the overlay is reloaded |
| DataTable.Table.ToggleRememberRow | renderer/components/DataTable.tsx:217-226 | the rows become the optimistic update of the old rows |
| ExcelImport.Declarations | renderer/helpers/readDataFromExcel.ts:120-130 | no declaration exactly when no attribute is set; bold and italic appear exactly when set; a colour comes last |
| ExcelImport.DeclarationsOrdered | renderer/helpers/readDataFromExcel.ts:123-127 | one declaration per set attribute, in the order bold, italic, size, colour |
| ExcelImport.RenderDeclarations | renderer/helpers/readDataFromExcel.ts:121-129 | the CSS is empty exactly when there are no declarations, and a non-empty one ends with `; ` |
| ExcelImport.RenderDeclarationsConcat | renderer/helpers/readDataFromExcel.ts:121-129 | rendering distributes over concatenation, so appending a declaration appends its text |
| ExcelImport.FontStylesToCss | renderer/helpers/readDataFromExcel.ts:120-130 | the CSS is `""` exactly when no attribute (bold, italic, non-zero size, non-empty ARGB) is set; `HasSize` is the `if (fontStyle.size)` test and `HasColor` is `fontStyle.color && fontStyle.color.argb` |
| ExcelImport.FontStylesRenderDeclarations | renderer/helpers/readDataFromExcel.ts:120-130 | the CSS string is the rendering of the ordered declarations, the colour being the ARGB minus its first two characters; `ColorHex` is `#` + `argb.slice(2)` |
| ExcelImport.CssShape | renderer/helpers/readDataFromExcel.ts:120-130 | a non-empty CSS string starts with a property letter and ends with `; ` |
| ExcelImport.StyleFor | renderer/helpers/readDataFromExcel.ts:86-91 | a style attribute appears exactly when a font is present and its CSS is non-empty, and its value is the trimmed CSS, which is the CSS without its final space |
| ExcelImport.EscapeNewlines | renderer/helpers/readDataFromExcel.ts:95 | the result contains no newline, and text without one is unchanged |
| ExcelImport.EscapeNewlinesConcat | renderer/helpers/readDataFromExcel.ts:95 | a global replace distributes over concatenation |
| ExcelImport.CellSpans | renderer/helpers/readDataFromExcel.ts:81-115 | a rich-text cell gives exactly one span per run, in run order, from the run's font and text (missing text empty); any other cell gives one span; no span body contains a newline; `SpanFor` pairs the style with the escaped text, `RunText` is the run text, or `""` when missing and `RenderSpan` prints one span |
| ExcelImport.SpanHtml | renderer/helpers/readDataFromExcel.ts:85-96 | the built string is `<span`, the optional style attribute, `>`, the escaped body and `</span>` |
| ExcelImport.ConvertCellToHtml | renderer/helpers/readDataFromExcel.ts:77-118 | the HTML is the concatenation of the cell's spans, in order; `RenderSpans` is the `html += …` accumulation over the spans and `CellHtml` is the HTML returned |
| ExcelImport.ColumnKeyInjective | renderer/helpers/readDataFromExcel.ts:33-46 | different column numbers give different `column{i}` keys |
| ExcelImport.ColumnKeyNotIsRemember | renderer/helpers/readDataFromExcel.ts:40-45 | no column key collides with `isRemember` |
| ExcelImport.ColumnRange | renderer/helpers/readDataFromExcel.ts:33-35 | `column{i}` for i from first to last, ascending, `last - first + 1` of them (none when last < first); `ColumnKey` is the template `column${i}` |
| ExcelImport.ColumnRangeSnoc | renderer/helpers/readDataFromExcel.ts:33-35 | each loop step appends the next key |
| ExcelImport.ColumnNamesDistinct | renderer/helpers/readDataFromExcel.ts:30-35 | the column names have no duplicates |
| ExcelImport.ColumnKeyFresh | renderer/helpers/readDataFromExcel.ts:42-45 | the key written at step i is not yet in the record |
| ExcelImport.RowRecordStep | renderer/helpers/readDataFromExcel.ts:42-46 | one loop step extends a valid record for columns first..i-1 to one for first..i |
| ExcelImport.RowRecord | renderer/helpers/readDataFromExcel.ts:39-46 | the record has keys `isRemember` then the column keys in order, `isRemember` 0, and each column's HTML, or `""` for a falsy cell; `IsRowRecord` states this shape, `CellData` is the HTML for a cell whose value is `Truthy` and `""` otherwise |
| ExcelImport.ColumnNameList | renderer/helpers/readDataFromExcel.ts:30-35 | the column names are `isRemember` followed by the column range |
| ExcelImport.RowRecords | renderer/helpers/readDataFromExcel.ts:37-51 | one record per sheet row, in order, each as `RowRecord` states |
| ExcelImport.ReadData | renderer/helpers/readDataFromExcel.ts:9-58 | a missing worksheet fails with its message; absent rows give empty names and data; otherwise the names and one record per row as above |
| CreateDbModal.DefaultDataSet | renderer/components/settings/CreateDBModal.tsx:27-35 | the initial form has an empty name and sheet, no file and all bounds 1 |
| CreateDbModal.FindIndexByName | renderer/components/settings/CreateDBModal.tsx:47-49 | `findIndex` gives the first database with the name, or -1 exactly when none has it |
| CreateDbModal.IsNameExist | renderer/components/settings/CreateDBModal.tsx:46-51 | true if and only if some listed database has exactly that name |
| CreateDbModal.IsFormValid | renderer/components/settings/CreateDBModal.tsx:53-66 | valid if and only if the name is non-empty and unused, a file is chosen, `1 <= columnFrom <= columnTo`, `1 <= rowFrom <= rowTo` and the sheet name is non-empty |
| CreateDbModal.DefaultDataSetInvalid | renderer/components/settings/CreateDBModal.tsx:27-35 | the initial form is never valid, whatever databases exist |
| SettingsTab.ClampFontSize | renderer/components/SettingsTab.tsx:79-84 | the stored size is `max(size, 14)` |
| SettingsTab.ClampInterval | renderer/components/SettingsTab.tsx:88-93 | an interval below `floor(5000 / 1000) = 5` becomes 5, any other is kept |
| SettingsTab.ClampFontSizeStable | renderer/components/SettingsTab.tsx:79-84 | clamping is idempotent and monotone |
| SettingsTab.ChosenDb | renderer/components/SettingsTab.tsx:74 | the chosen key or null is a name exactly for a non-empty chosen name |
| SettingsTab.SelectionUpdate | renderer/components/SettingsTab.tsx:67-77 | the store is updated, with the chosen name or null, exactly when the chosen key strictly differs from the selected database; `StrictlyDiffers` is `dbName !== selectedDB` with `undefined`, `null` and names kept apart |
| SettingsTab.SelectionChangesOnlyOnDifference | renderer/components/SettingsTab.tsx:67-77 | choosing the selected name changes nothing; a change is only to null or to the chosen name |
| SettingsTab.EmptySelectionStillReloads | renderer/components/SettingsTab.tsx:67-77 | an emptied key set with nothing selected still writes null and reloads, since `undefined !== null` |
| SettingsTab.Panel.constructor | renderer/components/SettingsTab.tsx:32-55 | the panel starts with the given store and selected database |
| SettingsTab.Panel.ReloadSticky | renderer/components/SettingsTab.tsx:117-122 | two toggles when the overlay is shown, so its visibility is unchanged; nothing when it is hidden |
| SettingsTab.Panel.SelectedKeyChanged | renderer/components/SettingsTab.tsx:67-77 | the selected database and the reload follow the guard: a strictly different key stores the chosen name or null and reloads, anything else changes nothing |
| SettingsTab.Panel.ChangeFontSize | renderer/components/SettingsTab.tsx:79-86 | the font size becomes the clamped size, then the overlay is reloaded |
| SettingsTab.Panel.ChangeInterval | renderer/components/SettingsTab.tsx:88-95 | the interval becomes the clamped interval, then the overlay is reloaded |
| SettingsTab.Panel.ChangeAutoResize | renderer/components/SettingsTab.tsx:97-100 | the flag is stored, then the overlay is reloaded |
| SettingsTab.Panel.ChangeIsRandom | renderer/components/SettingsTab.tsx:102-105 | the flag is stored, then the overlay is reloaded |
| SettingsTab.Panel.ChangeIsBreakLine | renderer/components/SettingsTab.tsx:107-110 | the flag is stored, then the overlay is reloaded |
| SettingsTab.Panel.ChangeIsFurigana | renderer/components/SettingsTab.tsx:112-115 | the flag is stored, then the overlay is reloaded |
| SettingsTab.Panel.ChangeSplitedBy | renderer/components/SettingsTab.tsx:134-137 | the separator is stored, then the overlay is reloaded |
| SettingsTab.Panel.ChangeBgColor | renderer/components/SettingsTab.tsx:149-152 | the colour is stored, then the overlay is reloaded |
| SettingsTab.Panel.ChangePitch | renderer/components/SettingsTab.tsx:158-161 | the pitch is stored, then the overlay is reloaded |
| SettingsTab.Panel.ChangeRate | renderer/components/SettingsTab.tsx:163-166 | the rate is stored, then the overlay is reloaded |
| SettingsTab.Panel.ChangeRunOnStartup | renderer/components/SettingsTab.tsx:154-156 | the flag is stored and the overlay is not reloaded |
| GlobalStore.Store.constructor | renderer/components/SettingsTab.tsx:55 | the store starts with the given visibility and no toggles |
| GlobalStore.Store.ToggleShowSticky | renderer/components/SettingsTab.tsx:119-120 | one toggle flips the overlay's visibility |
| Utils.PartnerIndex | renderer/helpers/utils.ts:3 | the swap partner `j` lies in [0, i] |
| Utils.Swap | renderer/helpers/utils.ts:4 | positions i and j are exchanged and every other position is unchanged |
| Utils.SwapPermutes | renderer/helpers/utils.ts:4 | a swap keeps the multiset of elements |
| Utils.ShuffleFrom | renderer/helpers/utils.ts:2-5 | the loop from position i down keeps the length |
| Utils.ShuffleFromIsPermutation | renderer/helpers/utils.ts:2-5 | the loop from any position down keeps the multiset of elements |
| Utils.ShuffledIsPermutation | renderer/helpers/utils.ts:2-5 | whatever random values come, the shuffle keeps the length and the multiset; `Shuffled` is the loop run from the last position down to 1 |
| Utils.ShortArrayUnchanged | renderer/helpers/utils.ts:2 | arrays of length 0 or 1 are left as they are |
| Utils.SwapElements | renderer/helpers/utils.ts:4 | the destructuring assignment swaps the two array cells in place |
| Utils.ShuffleArray | renderer/helpers/utils.ts:1-7 | the array given is returned, and its new contents are its old contents shuffled, a permutation of them |
| RandomIndex.ScaledFloor | renderer/helpers/utils.ts:3 | `floor(r * m)` for r in [0, 1) is below `m` when `m > 0` |
| Strings.NatToString | renderer/helpers/readDataFromExcel.ts:34 | a number prints as one or more decimal digits |
| Strings.IntToString | renderer/helpers/readDataFromExcel.ts:34 | negative numbers print with a leading `-` |
| Strings.NatToStringInjective | renderer/helpers/readDataFromExcel.ts:34 | different naturals print differently |
| Strings.IntToStringInjective | renderer/helpers/readDataFromExcel.ts:34 | different integers print differently |
| Strings.Join | renderer/pages/sticky.tsx:118 | joining nothing gives `""`, and joining one item gives that item |
| Strings.Trim | renderer/helpers/readDataFromExcel.ts:89 | the trimmed text is a slice of the input; every character removed at either end is white space, and the result neither starts nor ends with it; `IsJsWhitespace` is the set of white space and line terminator characters `trim` removes |
| Records.Keys | renderer/components/DataTable.tsx:140 | `Object.keys` lists the keys in insertion order |
| Records.Values | renderer/pages/sticky.tsx:81 | `Object.values` lists the values in insertion order |
| Records.Lookup | renderer/components/DataTable.tsx:223 | a key has a value exactly when it is among the record's keys |
| Records.Assign | renderer/helpers/readDataFromExcel.ts:40-45 | after `rec[key] = v` the key maps to v; an existing key keeps its place, a new one is appended |
| Records.AssignKeepsOthers | renderer/components/DataTable.tsx:223 | assigning one key leaves every other key's value unchanged |
| Records.JoinValues | renderer/pages/sticky.tsx:118 | `join` joins the values' printed forms, with `null` printed as empty; `JoinElement` is how `join` prints one value |

## Left out

- Sticky: the auto-resize timeout and window-resize IPC (`sticky.tsx:142-159`), the settings IPC (`sticky.tsx:163-169`) and the Kuroshiro initialisation are host plumbing. The converter is a parameter instead.
- Sticky.Overlay.ProcessText: the conversion is asynchronous in the source; a conversion still pending when the counter moves on is not modelled, and lines appear as if every conversion settled at once.
- Sticky.Overlay.Tick: the timer period is recorded but time itself is not modelled; each call stands for one firing of the interval.
- Sticky: React's scheduling of effects and renders is not modelled. The caller invokes `IntervalEffect` and `ProcessText` when their dependencies change. The mouse-enter and mouse-leave handlers (`sticky.tsx:235-236`) are `PauseInterval` and `StartInterval` themselves.
- DataTable: the Kuroshiro initialisation, the DOMParser font-size removal (`DataTable.tsx:53-74`, `utils.ts:9-17`) and `formatVoiceName` are left out. They depend on a browser HTML parser or on rendering only.
- DataTable.Table.SetData: the random-comparator sort (`DataTable.tsx:181-183`) is not modelled. Its outcome depends on the browser's sort, and the rows are taken as the listing returns them.
- DataTable.Table.ToggleRememberRow: the `updateData` database request is an IPC call and is not modelled, only the optimistic update.
- DataTable.HandleSpeak: speech itself is a browser service; the model returns the `cancel` and `speak` calls instead of performing them.
- DataTable.Table.LoadStoredSettings: `JSON.parse` of the stored entry is not modelled; the entry is taken as already parsed settings. The `onvoiceschanged` subscription is reduced to one load of the voices.
- ExcelImport.ReadData: reading the file (`readFile`, `FileReader`) and loading the workbook with exceljs are left out. The worksheet lookup result is an input, so a workbook load that throws is not modelled. The per-row `try`/`catch` and console logging are left out because nothing in the model throws.
- ExcelImport.FontStylesToCss: the source accumulates `cssString +=` step by step. The model builds the same string as one concatenation of the four conditional pieces. `FontStylesRenderDeclarations` proves it equal to the step-by-step rendering of the declarations.
- ExcelImport.Font: only integer font sizes are modelled; `size` is a natural number here, where exceljs allows a fractional one. The text of ARGB colours is taken as given.
- ExcelImport.Truthy: cell values other than null and rich text are reduced to their truthiness; dates, formulas and hyperlinks are not modelled separately.
- Records.Lookup: states only whether a key is present, not which pair supplies the value; `Assign` and `AssignKeepsOthers` state what an update does to lookups.
- SettingsTab: `handleRestoreFactory` and `handleDeleteDB` are left out. They depend on the confirmation prompt, the database IPC and the store's `resetSettings`. Their effect on the selection is emptying the key set, which `EmptySelectionStillReloads` covers.
- SettingsTab.Panel.ChangePitch: `parseFloat` is not modelled, and the parsed number is the input; the same holds for `ChangeRate`. A `NaN` from a malformed string is not represented.
- SettingsTab.Panel.ChangeFontSize: the number field (`SettingsTab.tsx:236-246`) passes a string, and the clamp compares it with `<` after coercion. A string at or above 14 is stored as the raw string, and an emptied field coerces to 0, so it becomes 14. The model takes an integer: the string value, fractional sizes and `NaN` are not represented.
- SettingsTab.Panel.ChangeInterval: the number field (`SettingsTab.tsx:250-260`) passes a string as well. An interval at or above 5 is stored as the raw string, and an emptied field becomes 5. The model takes an integer: the string value, fractions and `NaN` are not represented.
- CreateDbModal.IsFormValid: the bound fields store `parseInt(value)` (`CreateDBModal.tsx:146-184`), which is `NaN` for an emptied field. Every comparison with `NaN` is false, so such a form is invalid. The model's bounds are integers, so a `NaN` bound is not represented.
- DataTable.Table.ReloadSticky: the second toggle runs 100 ms later through `setTimeout` (`DataTable.tsx:258`). The model performs both toggles at once, so the moment between them, when the overlay is hidden, and any other update in that gap are not captured.
- Sticky.Overlay.LoadShownColumns: `JSON.parse` can return any JSON value. The model narrows the result to a list of integers or a failure. A stored string, such as `"12"`, would filter by substring through `includes`; a stored number has no `length`, so nothing is filtered. Neither case is represented.
- Utils.ShuffleArray: `Math.random()` floats are abstracted as reals in [0, 1), so no claim is made about the distribution of the result.
