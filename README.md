# Data-table dashboard extension: settings, grid assembly and configuration dialog

This project models the core of a dashboard extension that shows a worksheet's
data in a grid widget. It also models the configuration dialog that edits the
extension's settings. The settings are a key/value store of strings. The two
halves talk to each other only through that store:

- The grid's render pass (`renderDataTable`, js/index.js) reads the settings and
  the worksheet's summary data. From them it assembles the widget's input:
  - the header list;
  - a row matrix, widened by an optional checkbox column and an optional action
    column;
  - the column definitions of those two synthetic columns;
  - the export-button list and the `table-classes` string.
- The widget's draw callback computes:
  - the item range that a numbered pagination button announces;
  - the `aria-sort` token of the sorted column.
- The `configure` action opens the dialog at a URL derived from the page's own
  address.
- The dialog (js/dialog.js):
  - `buildDialog` restores the checkboxes, the column list and the text inputs
    from the settings;
  - `columnsUpdate` lists a worksheet's columns, numbered from 1;
  - `saveButton` writes every checkbox as a "Y"/"N" flag, the styling classes,
    the text inputs and the two pipe-joined column lists back into the store.

Modules:

| file | module | what it holds |
|---|---|---|
| settings.dfy | `Settings` | the key enumeration, the store, and the `SettingsStore` class the dialog writes into |
| text.dfy | `Text` | `split`, the hand-written pipe join, `lastIndexOf` and the decimal rendering of counters, with their round trips |
| grid.dfy | `Grid` | the render pass, as imperative methods over sequences and a two-dimensional array |
| draw.dfy | `DrawCallback` | the pagination range and the `aria-sort` mapping |
| configure.dfy | `Configure` | the popup URL |
| dialog.dfy | `Dialog` | the form (a `DialogForm` class whose handlers update it in place), the restore, the column numbering and the save handler, with the save specified by a pure function `Saved` |
| roundtrip.dfy | `RoundTrip` | save/restore round trips, save idempotence, and what the grid reads back from a save |

Three points of the code's behaviour are easy to misread; the model follows the
code:

- The stored `column-order` is never applied when the grid is rendered. Cells are
  copied in the worksheet's natural column order. `column-order` only seeds the
  dialog's `col_num` attributes.
- `checkbox-column` is a "Y" flag, not a 1-based position. With the flag on, the
  checkbox column is the slot straight after the real columns. With an action
  element set, the action column is always the last slot.
- The header list is truncated to the shorter of the stored names and the live
  columns. The row matrix always has all live columns.

Settings keys are an enumeration (`Settings.Key`): one flag per dialog checkbox,
plus the text settings. The grid and the dialog read and write no other key. All
seventeen checkboxes are flags, so restoring a stored worksheet's settings
decides every checkbox.

## Model

| member | source | states |
|---|---|---|
| Settings.SettingsStore.Set | js/dialog.js:195-196 | `settings.set` maps the key to the value and changes no other key |
| Text.Split | js/index.js:123 | `split` on a one-character separator gives at least one piece, and no piece holds the separator |
| Text.Join | js/dialog.js:316-341 | the hand-written join: the pieces with one separator between neighbours, the empty string for no pieces (its round trips with `Split` are `Text.SplitJoin` and `Text.JoinSplit`) |
| Text.SplitJoin | js/index.js:123 | splitting the join of a non-empty list of separator-free pieces gives back the pieces (the empty list joins to "", which splits into `[""]`) |
| Text.JoinSplit | js/dialog.js:116-117 | joining what `split` produced gives back the original string, whatever it holds |
| Text.LastIndexOf | js/index.js:455 | the result is -1 or a position holding the character, with no occurrence after it |
| Text.Decimal | js/dialog.js:171 | the counter renders as a non-empty run of decimal digits without a leading zero |
| Text.DigitsValue | js/dialog.js:171 | the number a run of decimal digits stands for, most significant digit first |
| Text.DecimalValue | js/dialog.js:171 | the rendered counter stands for the counter: `DigitsValue(Decimal(n)) == n` |
| Text.DecimalInjective | js/dialog.js:124-125 | different numbers render as different strings |
| Grid.CheckboxOn | js/index.js:67 | checkbox mode is on only for the stored string "Y" |
| Grid.ActionOn | js/index.js:66-69 | the action column is on for a stored, non-empty action element (JavaScript truthiness) |
| Grid.SwitchesByGet | js/index.js:66-67 | the two switches agree with reading the store through `settings.get`: equal to "Y", and defined and non-empty |
| Grid.BuildHeaders | js/index.js:121-128 | one header per stored name up to the live column count, in order, then one empty header per synthetic column that is on |
| Grid.MakeArray | js/index.js:443-449 | a fresh matrix with `d2` rows of `d1` slots, all unwritten |
| Grid.FillRows | js/index.js:132-140 | every row's first `nCols` slots hold that row's formatted values in source order; the checkbox slot copies slot 0; every other slot is untouched |
| Grid.PushIf | js/index.js:155-157 | a button ranked after all present ones is appended exactly when its condition holds, and the list stays in rank order |
| Grid.BuildButtons | js/index.js:153-202 | each export button is present exactly when its flag is "Y"; the select button is present exactly when its caption is set, and carries it; the list is in the fixed order; the 'Bfrtip' layout is requested exactly when the list is non-empty |
| Grid.BuildColumnDefs | js/index.js:203-227 | the checkbox definition targets slot `nCols`, the action definition targets the last slot and shows the action element, and no definition targets a real column |
| Grid.RenderDataTable | js/index.js:49-229 | no worksheet clears the grid; a missing `column-names` fails the pass; otherwise: the headers are the stored names up to the live column count, then empty titles, and fill the width exactly when there are enough names; the matrix has `totalRowCount` rows of the extended width; real slots hold the data and the checkbox slot copies the first column; the buttons and the 'Bfrtip' layout are those `ButtonsFor` reads from the store; row grouping is on exactly when there are buttons; the column definitions are those `DefsFor` gives for the two switches |
| DrawCallback.PageRange | js/index.js:397-402 | the first item is `(pageNum - 1) * itemsPerPage + 1`; the last is the nominal last item clamped to the total |
| DrawCallback.PageSize | js/index.js:397-402 | a page with an existing first item announces between 1 and `itemsPerPage` items |
| DrawCallback.ConsecutivePages | js/index.js:397-402 | neighbouring pages leave no gap and no overlap |
| DrawCallback.PagesCoverPrefix | js/index.js:397-402 | pages 1 to n announce consecutive, disjoint ranges starting at item 1 |
| DrawCallback.AriaSort | js/index.js:427 | "asc" maps to "ascending", "desc" to "descending", anything else to "other", in both directions |
| Configure.PopupUrl | js/index.js:454-455 | the URL is a prefix of the address ending in '/' (or empty), with no '/' after it in the address, followed by "dialog.html" |
| Configure.PopupDirectoryUnique | js/index.js:454-455 | any prefix with the properties of `PopupUrl`'s directory is that directory |
| Dialog.ShownMembers | js/dialog.js:202-244 | a styling class is shown exactly when its box is ticked, except "nowrap", which is shown exactly when its box is not ticked |
| Dialog.StyleClassesByBox | js/dialog.js:202-246 | `table-classes` is the seven per-box class tokens appended in the handler's order |
| Dialog.StyleClassesSplit | js/dialog.js:202-246 | splitting `table-classes` on spaces gives an empty piece, then the shown class names in order |
| Dialog.StyleClassPresent | js/dialog.js:202-246 | a styling class name is among the space-separated pieces of `table-classes` exactly when it is shown |
| Dialog.DisplayName | js/dialog.js:327-338 | the name a column is saved under: the typed value, or the input's id when nothing was typed |
| Dialog.PageSizeOrDefault | js/dialog.js:303-305 | an empty page size is saved as "5"; a non-empty one is saved as typed; the saved value is never empty |
| Dialog.SerializeColumns | js/dialog.js:316-341 | the loop's `column_order` and `column_name` are the pipe joins of the `col_num`s and of the display names |
| Dialog.NumberColumns | js/dialog.js:164-173 | one empty input per worksheet column, with the field name as id and `col_num` counting 1, 2, ... in source order |
| Dialog.DialogForm.ColumnsUpdate | js/dialog.js:153-183 | the column list is replaced by the numbered list of the worksheet's columns |
| Dialog.OfferedOptions | js/dialog.js:123-125 | one row-header option per stored name, numbered from 1, selected when the stored count is its number |
| Dialog.OneOptionSelected | js/dialog.js:123-125 | at most one row-header option is selected, whatever is stored |
| Dialog.SeedColumns | js/dialog.js:114-126 | one empty input per stored name, with `col_num` from the same position of the stored order ("undefined" past its end); one row-header option per name, selected exactly when the stored count is its number |
| Dialog.RestoredChecked | js/dialog.js:15-103 | a box is ticked after the restore exactly when its stored flag is "Y" |
| Dialog.FieldValue | js/dialog.js:136-142 | an input restored from the store shows the stored string, or nothing for a missing key |
| Dialog.RestoredState | js/dialog.js:13-142 | the form after `buildDialog`: flags replaced only when a worksheet is stored; when a non-empty `column-order` is stored without `column-names`, only the flags change; otherwise the column list and options are seeded for a non-empty order and the text inputs restored (the specification of `BuildDialog`, and of the round-trip lemmas) |
| Dialog.DialogForm.BuildDialog | js/dialog.js:13-151 | the form becomes `RestoredState`: flags restored only when a worksheet is stored, the column list seeded only for a non-empty stored order, the run stopping when `column-names` is then missing, and the text inputs restored |
| Dialog.FlagWritesLookup | js/dialog.js:203-302 | after a run of flag writes, every written box's flag is "Y" or "N" by whether it is ticked, and every other key is unchanged |
| Dialog.SaveStyleBox | js/dialog.js:203-214 | a styling box is saved as its flag, and its class token is appended |
| Dialog.SaveNowrapBox | js/dialog.js:215-220 | "nowrap" is saved as its flag, and its class is appended when the box is not ticked |
| Dialog.SaveBox | js/dialog.js:249-302 | a box is saved as "Y" when ticked and as "N" otherwise |
| Dialog.DialogForm.SaveStyling | js/dialog.js:202-246 | the seven styling flags, then `table-classes`, are written as `SavedStyling` says |
| Dialog.DialogForm.SaveOtherFlags | js/dialog.js:248-302 | the ten other flags are written in order, as `SavedOtherFlags` says |
| Dialog.DialogForm.SaveInputs | js/dialog.js:303-309 | the page size (with its default) and the four text inputs are written |
| Dialog.DialogForm.SaveColumns | js/dialog.js:311-348 | the row-header count and the two joined column lists are written |
| Dialog.Saved | js/dialog.js:192-349 | the store after `saveButton`: its five groups of writes in the handler's order (the per-key result is `RoundTrip.SavedLookup`) |
| Dialog.DialogForm.SaveButton | js/dialog.js:192-349 | the store after the handler is `Saved(old store, form)` |
| RoundTrip.SavedGet | js/index.js:64-67 | after a save, `settings.get` returns the key's `SavedValue` for every key, never `undefined` |
| RoundTrip.SavedLookup | js/dialog.js:192-349 | after a save, every key is stored and holds its `SavedValue`, whatever was stored before |
| RoundTrip.SavedForgets | js/dialog.js:192-349 | two forms that give every key the same value save equal stores, from any two prior stores |
| RoundTrip.SavedSavesForm | js/dialog.js:192-349 | the store after a save holds the form under every key |
| RoundTrip.FlagsRoundTrip | js/dialog.js:15-103 | reopening the dialog on a saved form ticks exactly the boxes that were ticked |
| RoundTrip.FieldsRoundTrip | js/dialog.js:136-142 | reopening always completes and restores every text input as saved, the empty page size replaced by "5" |
| RoundTrip.ColumnsRoundTrip | js/dialog.js:113-126 | a saved list with a non-empty `column-order` and no pipe in any `col_num` or display name (`Reopenable`) reopens as `ReopenedColumns`: one empty input per saved column, in order, whose id is the saved display name (so a typed name replaces the field name) and whose `col_num` is kept; one row-header option per column is appended, an option selected exactly when the saved count is the decimal string of its number; an empty saved order changes neither the list nor the options |
| RoundTrip.SavedListsSplit | js/dialog.js:116-117 | for a non-empty list with no pipe in any `col_num` or display name, splitting the saved lists gives back the `col_num`s and the display names |
| RoundTrip.ReopenedListsResave | js/dialog.js:316-348 | saving a reopened column list writes the same two lists again |
| RoundTrip.ResaveIsIdentity | js/dialog.js:13-349 | save, reopen, save: the second save writes exactly what the first did, provided the saved `column-order` is non-empty, no `col_num` or display name holds a pipe (`Reopenable`), and the row-header dropdown reports the saved count again |
| RoundTrip.ReopenedValues | js/dialog.js:13-151 | provided the saved list is `Reopenable` (non-empty `column-order`, no pipes) and the row-header input holds the saved count again, the reopened form gives every key the value the saved form gave it |
| RoundTrip.GridReadsSaved | js/index.js:64-170 | after a save, the grid offers each export button exactly when its box was ticked, the select button exactly when its caption is non-empty, the checkbox column only for the typed value "Y", the action column exactly for a non-empty action element, and the saved styling classes |
| RoundTrip.NumberedOrderSaved | js/dialog.js:167-173 | a freshly listed worksheet with at least one column is saved with a `column-order` that splits back into the counters, the k-th standing for k + 1 |
| RoundTrip.NumberedNamesSaved | js/dialog.js:171 | a freshly listed worksheet, saved untouched, stores its field names pipe-joined as `column-names` |
| RoundTrip.NoPipeInDecimal | js/dialog.js:171 | a decimal counter holds no pipe |

## Left out

- The host API's asynchronous calls (worksheet lookup, summary-data query, `saveAsync`, `displayDialogAsync`, `closeDialog`) and its event listeners are not modelled. The render pass takes the summary data as a parameter. The dialog's handlers end where the store has been written.
- DOM and jQuery effects are not modelled: showing and hiding elements, destroying the old widget, the sortable list's drag handling, the widget's language strings and fixed options (`lengthMenu`, `stateSave`, ...), the click handlers that apply filters, and console logging.
- The draw callback's markup edits (sr-only texts, `tabindex`, the caption text) are not modelled. Only the numbers and tokens it computes are.
- Grid.RenderDataTable: the worksheet named in the settings is assumed to exist. When the name matches no worksheet, `find` yields `undefined` and the pass fails at its first use, `addEventListener` (js/index.js:104); that failure is not modelled.
- Grid.MakeArray: the source builds an array of row arrays. The model uses one two-dimensional array of the same shape. An unwritten JavaScript slot is modelled as `Undefined`.
- Grid.FillRows: requires every counted row to have a value for every column (`WellFormed`). The source would fail on a shorter row, and that failure is not modelled.
- Dialog.SeedColumns: selects a row-header option only for the exact decimal string; see the next line.
- Dialog.OfferedOptions: the source compares the stored row-header count with `==` against a number, so strings such as "02" or " 2" also select option 2. The model selects an option only for the exact decimal string.
- Dialog.RestoredState: restoring a text input puts back the stored string. For the two worksheet dropdowns the source's `val` yields `null` when no option matches. The model does not capture that case, and lists no worksheet options.
- Dialog.RestoredState: the row-header dropdown's selected value is not restored into `colCountRowHeader`. The source only marks an option as selected; what the dropdown then reports is widget behaviour.
- The `id` and `col_num` attributes are read back as the strings that were written into the markup. Markup effects on them are not modelled: a name containing a quote, HTML character references (a typed `R&amp;D` comes back as the id `R&D`), and the unquoted `col_num=` attribute (js/dialog.js:121), which cuts a value at its first space. Each of these breaks the save–reopen–save identity in the source.
- DrawCallback.PageRange: JavaScript numbers are modelled as unbounded integers. Double-precision rounding of very large page numbers is not modelled.
- The popup's size (540 by 800) is only passed to the host, and is not modelled.
- The dialog's close button (`closeDialog`) only closes the popup, and is not modelled.
- Settings keys that no core function reads or writes are not modelled.
