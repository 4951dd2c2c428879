/** The grid input that `renderDataTable` assembles once the worksheet's summary
    data has arrived (js/index.js): the header list, the row matrix, the
    column definitions of the synthetic checkbox and action columns, and the
    export-button list.

    The stored `column-order` is not consulted here: cells are copied in the
    source's natural column order. The checkbox column, when on, is the slot
    straight after the real columns; the action column, when on, is the last slot. */
module Grid {
  import opened Settings
  import opened Text

  /** What the host's summary-data query returns: one field name per column, the
      rows of formatted cell values, and the row count it reports. */
  datatype Summary = Summary(fieldNames: seq<string>, data: seq<seq<string>>, totalRowCount: nat)

  /** What the fill loop reads: every counted row exists and has a value for every column. */
  predicate WellFormed(s: Summary)
  {
    s.totalRowCount <= |s.data| &&
    forall i :: 0 <= i < s.totalRowCount ==> |s.fieldNames| <= |s.data[i]|
  }

  /** A slot of the row matrix: written with a formatted value, or never written. */
  datatype Cell = Undefined | Value(text: string)

  /** One entry of the widget's `columns` option. */
  datatype Header = Header(title: string)

  /** One entry of the widget's `columnDefs` option. */
  datatype ColumnDef = CheckboxDef(target: nat) | ActionDef(target: nat, defaultContent: string)

  /** One entry of the widget's `buttons` option; `SelectButton` is the custom
      button that applies the first column's values as a filter. */
  datatype Button = Copy | Csv | Excel | Pdf | Print | SelectButton(text: string)

  function Count(b: bool): nat { if b then 1 else 0 }

  function Min(a: nat, b: nat): nat { if a < b then a else b }

  /** `n_cols_ext`: the real columns plus one slot per synthetic column that is on. */
  function ExtendedWidth(nCols: nat, checkbox: bool, action: bool): nat
  {
    nCols + Count(checkbox) + Count(action)
  }

  /** Checkbox mode is on only for the literal stored value "Y". */
  predicate CheckboxOn(store: Store)
  {
    IsYes(store, CheckboxColumn)
  }

  /** The action column is on when the stored action element is a non-empty string. */
  predicate ActionOn(store: Store)
  {
    IsSet(store, ActionElement)
  }

  /** The two switches as the render pass reads them through `settings.get`:
      checkbox mode for a result equal to "Y", the action column for a truthy
      result (defined and non-empty). */
  lemma SwitchesByGet(store: Store)
    ensures CheckboxOn(store) <==> Get(store, CheckboxColumn) == Some("Y")
    ensures ActionOn(store) <==> Get(store, ActionElement).Some? && Get(store, ActionElement).value != ""
  {
  }

  /** The header list: one title per stored name, as long as there are live
      columns for them, then an empty title for each synthetic column that is on. */
  method BuildHeaders(names: seq<string>, nCols: nat, checkbox: bool, action: bool)
    returns (headers: seq<Header>)
    ensures |headers| == Min(|names|, nCols) + Count(checkbox) + Count(action)
    ensures forall k :: 0 <= k < Min(|names|, nCols) ==> headers[k] == Header(names[k])
    ensures forall k :: Min(|names|, nCols) <= k < |headers| ==> headers[k] == Header("")
  {
    headers := [];
    var i := 0;
    while i < |names| && i < nCols
      invariant 0 <= i <= Min(|names|, nCols)
      invariant |headers| == i
      invariant forall k :: 0 <= k < i ==> headers[k] == Header(names[k])
    {
      headers := headers + [Header(names[i])];
      i := i + 1;
    }
    if checkbox {
      headers := headers + [Header("")];
    }
    if action {
      headers := headers + [Header("")];
    }
  }

  /** `makeArray(d1, d2)`: `d2` rows of `d1` slots, none of them written yet. */
  method MakeArray(d1: nat, d2: nat) returns (arr: array2<Cell>)
    ensures fresh(arr)
    ensures arr.Length0 == d2 && arr.Length1 == d1
    ensures forall i, j :: 0 <= i < d2 && 0 <= j < d1 ==> arr[i, j] == Undefined
  {
    arr := new Cell[d2, d1]((i, j) => Undefined);
  }

  /** The fill loop: the first `nCols` slots of every row get the source row's
      values in natural order; with the checkbox on, slot `nCols` then copies
      slot 0. Every other slot is left as it was. */
  method FillRows(table: array2<Cell>, data: seq<seq<string>>, nCols: nat, checkbox: bool)
    requires table.Length0 <= |data|
    requires forall i :: 0 <= i < table.Length0 ==> nCols <= |data[i]|
    requires nCols + Count(checkbox) <= table.Length1
    modifies table
    ensures forall i, j :: 0 <= i < table.Length0 && 0 <= j < nCols ==> table[i, j] == Value(data[i][j])
    ensures checkbox ==> forall i :: 0 <= i < table.Length0 ==> table[i, nCols] == table[i, 0]
    ensures forall i, j ::
      0 <= i < table.Length0 && nCols <= j < table.Length1 && !(checkbox && j == nCols && 0 < nCols)
      ==> table[i, j] == old(table[i, j])
  {
    var i := 0;
    while i < table.Length0
      invariant 0 <= i <= table.Length0
      invariant forall r, j :: 0 <= r < i && 0 <= j < nCols ==> table[r, j] == Value(data[r][j])
      invariant checkbox ==> forall r :: 0 <= r < i ==> table[r, nCols] == table[r, 0]
      invariant forall r, j ::
        0 <= r < table.Length0 && 0 <= j < table.Length1 &&
        (i <= r || (nCols <= j && !(checkbox && j == nCols && 0 < nCols)))
        ==> table[r, j] == old(table[r, j])
    {
      var j := 0;
      while j < nCols
        invariant 0 <= j <= nCols
        invariant forall r, c :: 0 <= r < i && 0 <= c < nCols ==> table[r, c] == Value(data[r][c])
        invariant forall c :: 0 <= c < j ==> table[i, c] == Value(data[i][c])
        invariant checkbox ==> forall r :: 0 <= r < i ==> table[r, nCols] == table[r, 0]
        invariant forall r, c ::
          0 <= r < table.Length0 && 0 <= c < table.Length1 &&
          ((i < r || (r == i && j <= c)) || (nCols <= c && !(checkbox && c == nCols && 0 < nCols)))
          ==> table[r, c] == old(table[r, c])
      {
        table[i, j] := Value(data[i][j]);
        j := j + 1;
      }
      if checkbox {
        table[i, nCols] := table[i, 0];
      }
      i := i + 1;
    }
  }

  /** Rank of a button in the fixed toolbar order copy, csv, excel, pdf, print, select. */
  function Rank(b: Button): nat
  {
    match b
    case Copy => 0
    case Csv => 1
    case Excel => 2
    case Pdf => 3
    case Print => 4
    case SelectButton(_) => 5
  }

  /** One `if (...) { buttons.push(b); }` step: a button ranked after every
      button already in the list is appended when its condition holds. */
  method PushIf(buttons: seq<Button>, present: bool, b: Button) returns (r: seq<Button>)
    requires forall k :: 0 <= k < |buttons| ==> Rank(buttons[k]) < Rank(b)
    ensures forall x :: x in r <==> x in buttons || (present && x == b)
    ensures forall k :: 0 <= k < |r| ==> Rank(r[k]) <= Rank(b)
    ensures (forall k, l :: 0 <= k < l < |buttons| ==> Rank(buttons[k]) < Rank(buttons[l])) ==>
      forall k, l :: 0 <= k < l < |r| ==> Rank(r[k]) < Rank(r[l])
  {
    r := buttons;
    if present {
      r := r + [b];
    }
  }

  /** The button list read from the store: each standard button is present
      exactly when its flag is "Y", the select button exactly when its caption is
      set, carrying that caption, all in the fixed order; the toolbar layout
      'Bfrtip' is requested exactly for a non-empty list. */
  predicate ButtonsFor(store: Store, buttons: seq<Button>, dom: Option<string>)
  {
    && (Copy in buttons <==> IsYes(store, Flag(CopyBtn)))
    && (Csv in buttons <==> IsYes(store, Flag(ExportCsvBtn)))
    && (Excel in buttons <==> IsYes(store, Flag(ExportExcelBtn)))
    && (Pdf in buttons <==> IsYes(store, Flag(ExportPdfBtn)))
    && (Print in buttons <==> IsYes(store, Flag(PrintBtn)))
    && (IsSet(store, SelectBtnText) ==> SelectButton(store[SelectBtnText]) in buttons)
    && (forall k :: 0 <= k < |buttons| && buttons[k].SelectButton? ==>
          IsSet(store, SelectBtnText) && buttons[k].text == store[SelectBtnText])
    && (forall k, l :: 0 <= k < l < |buttons| ==> Rank(buttons[k]) < Rank(buttons[l]))
    && (dom.Some? <==> |buttons| > 0)
    && (dom.Some? ==> dom.value == "Bfrtip")
  }

  /** The `if (...) buttons.push(...)` sequence and the toolbar switch. */
  method BuildButtons(store: Store) returns (buttons: seq<Button>, dom: Option<string>)
    ensures ButtonsFor(store, buttons, dom)
  {
    buttons := [];
    buttons := PushIf(buttons, IsYes(store, Flag(CopyBtn)), Copy);
    buttons := PushIf(buttons, IsYes(store, Flag(ExportCsvBtn)), Csv);
    buttons := PushIf(buttons, IsYes(store, Flag(ExportExcelBtn)), Excel);
    buttons := PushIf(buttons, IsYes(store, Flag(ExportPdfBtn)), Pdf);
    buttons := PushIf(buttons, IsYes(store, Flag(PrintBtn)), Print);
    if IsSet(store, SelectBtnText) {
      buttons := PushIf(buttons, true, SelectButton(store[SelectBtnText]));
    }
    dom := if |buttons| > 0 then Some("Bfrtip") else None;
  }

  /** The column definitions: the checkbox column first, targeting slot `nCols`,
      then the action column, targeting the last slot and showing the stored
      action element. Both target synthetic slots only, never a real column. */
  predicate DefsFor(nCols: nat, checkbox: bool, actionElement: Option<string>, defs: seq<ColumnDef>)
  {
    var action := actionElement.Some? && actionElement.value != "";
    && |defs| == Count(checkbox) + Count(action)
    && (checkbox ==> defs[0] == CheckboxDef(nCols))
    && (action ==> defs[|defs| - 1] == ActionDef(ExtendedWidth(nCols, checkbox, action) - 1, actionElement.value))
    && (forall k :: 0 <= k < |defs| ==> nCols <= defs[k].target < ExtendedWidth(nCols, checkbox, action))
    && (forall k, l :: 0 <= k < l < |defs| ==> defs[k].target < defs[l].target)
  }

  /** The two conditional `columnDefs.push` calls. */
  method BuildColumnDefs(nCols: nat, checkbox: bool, actionElement: Option<string>)
    returns (defs: seq<ColumnDef>)
    ensures DefsFor(nCols, checkbox, actionElement, defs)
  {
    var action := actionElement.Some? && actionElement.value != "";
    var nColsExt := ExtendedWidth(nCols, checkbox, action);
    defs := [];
    if checkbox {
      defs := defs + [CheckboxDef(nCols)];
    }
    if action {
      defs := defs + [ActionDef(nColsExt - 1, actionElement.value)];
    }
  }

  /** Everything handed to the grid widget. */
  datatype GridInput = GridInput(
    headers: seq<Header>,
    table: array2<Cell>,
    tableClasses: Option<string>,
    buttons: seq<Button>,
    dom: Option<string>,
    rowGroup: bool,
    columnDefs: seq<ColumnDef>)

  /** The outcome of one render pass: no worksheet configured (the grid is
      cleared), the summary callback failing on a missing `column-names` entry,
      or the assembled grid input. */
  datatype Render = Unconfigured | MissingColumnNames | Rendered(grid: GridInput)

  /** One render pass, with the summary data the host returned for the configured
      worksheet as a parameter. */
  method RenderDataTable(store: Store, summary: Summary) returns (r: Render)
    requires WellFormed(summary)
    ensures r.Unconfigured? <==> !IsSet(store, Worksheet)
    ensures r.MissingColumnNames? <==> IsSet(store, Worksheet) && ColumnNames !in store
    ensures r.Rendered? ==>
      var nCols := |summary.fieldNames|;
      var names := Split(store[ColumnNames], '|');
      var width := ExtendedWidth(nCols, CheckboxOn(store), ActionOn(store));
      var g := r.grid;
      && fresh(g.table)
      && |g.headers| == Min(|names|, nCols) + Count(CheckboxOn(store)) + Count(ActionOn(store))
      && (forall k :: 0 <= k < Min(|names|, nCols) ==> g.headers[k] == Header(names[k]))
      && (forall k :: Min(|names|, nCols) <= k < |g.headers| ==> g.headers[k] == Header(""))
      && (|g.headers| == width <==> nCols <= |names|)
      && g.table.Length0 == summary.totalRowCount && g.table.Length1 == width
      && (forall i, j :: 0 <= i < g.table.Length0 && 0 <= j < nCols ==> g.table[i, j] == Value(summary.data[i][j]))
      && (CheckboxOn(store) ==> forall i :: 0 <= i < g.table.Length0 ==> g.table[i, nCols] == g.table[i, 0])
      && (forall i, j :: 0 <= i < g.table.Length0 && nCols <= j < width && !(CheckboxOn(store) && j == nCols && 0 < nCols)
            ==> g.table[i, j] == Undefined)
      && g.tableClasses == Get(store, TableClasses)
      && ButtonsFor(store, g.buttons, g.dom)
      && (g.rowGroup <==> |g.buttons| > 0)
      && DefsFor(nCols, CheckboxOn(store), Get(store, ActionElement), g.columnDefs)
      && |g.columnDefs| == Count(CheckboxOn(store)) + Count(ActionOn(store))
  {
    if !IsSet(store, Worksheet) {
      return Unconfigured;
    }
    var nCols := |summary.fieldNames|;
    var checkbox := CheckboxOn(store);
    var action := ActionOn(store);
    var nColsExt := ExtendedWidth(nCols, checkbox, action);
    if ColumnNames !in store {
      return MissingColumnNames;
    }
    var names := Split(store[ColumnNames], '|');
    var headers := BuildHeaders(names, nCols, checkbox, action);
    var table := MakeArray(nColsExt, summary.totalRowCount);
    FillRows(table, summary.data, nCols, checkbox);
    var buttons, dom := BuildButtons(store);
    var defs := BuildColumnDefs(nCols, checkbox, Get(store, ActionElement));
    r := Rendered(GridInput(headers, table, Get(store, TableClasses), buttons, dom, |buttons| > 0, defs));
  }
}
