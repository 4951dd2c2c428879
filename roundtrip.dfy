/** What the dialog's save handler and the dialog's restore, and the save handler
    and the grid, promise each other: a saved form reopens as it was saved, saving
    it again rewrites the same settings, and the grid reads back exactly what was
    ticked and typed. */
module RoundTrip {
  import opened Settings
  import opened Text
  import opened Dialog
  import Grid

  /** What each key holds after a save, key by key, independently of the
      order of the writes. */
  function SavedValue(f: FormState, k: Key): string
  {
    match k
    case Flag(b) => YesNo(b in f.checked)
    case Worksheet => f.fields.worksheet
    case WorksheetFilter => f.fields.worksheetFilter
    case TableClasses => StyleClasses(f.checked)
    case ItemsPerPage => PageSizeOrDefault(f.fields.itemsPerPage)
    case ActionElement => f.fields.actionElement
    case ActionElementColumn => f.fields.actionElementColumn
    case CheckboxColumn => f.fields.checkboxColumn
    case SelectBtnText => f.fields.selectBtnText
    case ColCountRowHeader => f.fields.colCountRowHeader
    case ColumnOrder => OrderList(f.columns)
    case ColumnNames => NameList(f.columns)
  }

  /** What `settings.get` returns for any key after a save: the key's `SavedValue`,
      never `undefined`. */
  lemma SavedGet(store: Store, f: FormState, k: Key)
    ensures Get(Saved(store, f), k) == Some(SavedValue(f, k))
  {
    SavedLookup(store, f, k);
  }

  /** The save handler writes every key, and no later write of the handler
      overwrites an earlier one with another value: each key ends up holding its
      `SavedValue`. */
  lemma SavedLookup(store: Store, f: FormState, k: Key)
    ensures k in Saved(store, f) && Saved(store, f)[k] == SavedValue(f, k)
  {
    if k.Flag? {
      SavedFlagLookup(store, f, k.box);
    } else if k in {Worksheet, WorksheetFilter, TableClasses} {
      SavedEarlyLookup(store, f, k);
    } else {
      SavedLateLookup(store, f, k);
    }
  }

  /** A box's flag, written by one of the two groups of box writes. */
  lemma SavedFlagLookup(store: Store, f: FormState, b: Box)
    ensures Flag(b) in Saved(store, f) && Saved(store, f)[Flag(b)] == YesNo(b in f.checked)
  {
    var data := SavedData(store, f);
    var styled := SavedStyling(data, f);
    var flagged := SavedOtherFlags(styled, f);
    assert Flag(b) in flagged && flagged[Flag(b)] == YesNo(b in f.checked) by {
      FlagWritesLookup(data, ClassBoxes, f.checked, Flag(b));
      FlagWritesLookup(styled, OtherBoxes, f.checked, Flag(b));
      BoxGroups(b);
    }
    LateWritesKeep(flagged, f, Flag(b));
  }

  /** The worksheet, its filter and the styling classes, written before the
      other boxes, which leave them alone. */
  lemma SavedEarlyLookup(store: Store, f: FormState, k: Key)
    requires k in {Worksheet, WorksheetFilter, TableClasses}
    ensures k in Saved(store, f) && Saved(store, f)[k] == SavedValue(f, k)
  {
    var data := SavedData(store, f);
    var styled := SavedStyling(data, f);
    var flagged := SavedOtherFlags(styled, f);
    assert k in styled && styled[k] == SavedValue(f, k) by {
      FlagWritesLookup(data, ClassBoxes, f.checked, k);
    }
    assert k in flagged && flagged[k] == SavedValue(f, k) by {
      FlagWritesLookup(styled, OtherBoxes, f.checked, k);
    }
    LateWritesKeep(flagged, f, k);
  }

  /** The inputs and the column lists, written after the flags, leave the flags,
      the worksheet, its filter and the styling classes alone. */
  lemma LateWritesKeep(s: Store, f: FormState, k: Key)
    requires k.Flag? || k in {Worksheet, WorksheetFilter, TableClasses}
    ensures k in SavedColumns(SavedInputs(s, f), f) <==> k in s
    ensures k in s ==> SavedColumns(SavedInputs(s, f), f)[k] == s[k]
  {
  }

  /** The inputs and the column lists, written last. */
  lemma SavedLateLookup(store: Store, f: FormState, k: Key)
    requires !k.Flag? && k !in {Worksheet, WorksheetFilter, TableClasses}
    ensures k in Saved(store, f) && Saved(store, f)[k] == SavedValue(f, k)
  {
  }

  /** The save handler writes every setting, so what was stored before does
      not show through: two forms that give every key the same value save the
      same settings, whatever the stores they are saved into. */
  lemma SavedForgets(a: Store, f: FormState, b: Store, g: FormState)
    requires forall k :: SavedValue(f, k) == SavedValue(g, k)
    ensures Saved(a, f) == Saved(b, g)
  {
    forall k
      ensures k in Saved(a, f) && k in Saved(b, g) && Saved(a, f)[k] == Saved(b, g)[k]
    {
      SavedLookup(a, f, k);
      SavedLookup(b, g, k);
    }
  }

  /** Whether a store holds, under every key, what saving the form writes there. */
  ghost predicate SavesForm(s: Store, f: FormState)
  {
    forall k :: k in s && s[k] == SavedValue(f, k)
  }

  /** Whatever was stored before, the store after a save holds the form. */
  lemma SavedSavesForm(store: Store, f: FormState)
    ensures SavesForm(Saved(store, f), f)
  {
    forall k
      ensures k in Saved(store, f) && Saved(store, f)[k] == SavedValue(f, k)
    {
      SavedLookup(store, f, k);
    }
  }

  /** Reopening the dialog on a store that holds a saved form ticks exactly the
      boxes that were ticked. */
  lemma FlagsRoundTrip(s: Store, f: FormState, prior: FormState)
    requires SavesForm(s, f)
    ensures RestoredState(s, prior).checked == f.checked
  {
    assert Worksheet in s;
    forall b
      ensures b in RestoredChecked(s) <==> b in f.checked
    {
      assert s[Flag(b)] == YesNo(b in f.checked);
    }
  }

  /** Reopening the dialog on a saved form always runs to its end, and puts
      every single-valued input back as it was saved, the empty page size
      replaced by its default. The row-header count is not put back into its
      input; it selects an option instead (see `ColumnsRoundTrip`). */
  lemma FieldsRoundTrip(s: Store, f: FormState, prior: FormState)
    requires SavesForm(s, f)
    ensures BuildCompletes(s)
    ensures RestoredState(s, prior).fields ==
      f.fields.(itemsPerPage := PageSizeOrDefault(f.fields.itemsPerPage),
                colCountRowHeader := prior.fields.colCountRowHeader)
  {
    assert ColumnNames in s;
    assert FieldValue(s, Worksheet) == f.fields.worksheet;
    assert FieldValue(s, WorksheetFilter) == f.fields.worksheetFilter;
    assert FieldValue(s, ItemsPerPage) == PageSizeOrDefault(f.fields.itemsPerPage);
    assert FieldValue(s, ActionElement) == f.fields.actionElement;
    assert FieldValue(s, ActionElementColumn) == f.fields.actionElementColumn;
    assert FieldValue(s, CheckboxColumn) == f.fields.checkboxColumn;
    assert FieldValue(s, SelectBtnText) == f.fields.selectBtnText;
  }

  /** The input list that reopening the dialog shows for a saved list: each
      input empty, named after what the saved input displayed, and keeping its
      `col_num`. */
  function ReopenedColumns(cs: seq<ColumnInput>): (r: seq<ColumnInput>)
    ensures |r| == |cs|
    ensures forall k :: 0 <= k < |cs| ==> r[k].value == "" && DisplayName(r[k]) == DisplayName(cs[k])
  {
    seq(|cs|, k requires 0 <= k < |cs| => ColumnInput("", DisplayName(cs[k]), cs[k].colNum))
  }

  /** Whether a column list survives the pipe-joining: it is saved as a
      non-empty `column-order`, and no `col_num` or display name holds a pipe. */
  predicate Reopenable(cs: seq<ColumnInput>)
  {
    OrderList(cs) != "" &&
    forall k :: 0 <= k < |cs| ==> '|' !in cs[k].colNum && '|' !in DisplayName(cs[k])
  }

  /** Splitting the saved lists gives back the `col_num`s and the display names. */
  lemma SavedListsSplit(cs: seq<ColumnInput>)
    requires |cs| >= 1
    requires forall k :: 0 <= k < |cs| ==> '|' !in cs[k].colNum && '|' !in DisplayName(cs[k])
    ensures Split(OrderList(cs), '|') == ColNums(cs)
    ensures Split(NameList(cs), '|') == DisplayNames(cs)
  {
    SplitJoin(ColNums(cs), '|');
    SplitJoin(DisplayNames(cs), '|');
  }

  /** Reopening the dialog on a saved list that survives the joining shows the
      same columns in the same order, each with its `col_num`, and offers one
      row-header option per column, the saved count selected; an empty saved
      `column-order` leaves the list and the options as they were. */
  lemma ColumnsRoundTrip(s: Store, f: FormState, prior: FormState)
    requires SavesForm(s, f)
    ensures Reopenable(f.columns) ==>
      RestoredState(s, prior).columns == ReopenedColumns(f.columns) &&
      RestoredState(s, prior).rowHeaderOptions ==
        prior.rowHeaderOptions + OfferedOptions(|f.columns|, Some(f.fields.colCountRowHeader))
    ensures OrderList(f.columns) == "" ==>
      RestoredState(s, prior).columns == prior.columns &&
      RestoredState(s, prior).rowHeaderOptions == prior.rowHeaderOptions
  {
    var cs := f.columns;
    assert s[ColumnOrder] == OrderList(cs) && s[ColumnNames] == NameList(cs);
    assert Get(s, ColCountRowHeader) == Some(f.fields.colCountRowHeader);
    if Reopenable(cs) {
      assert |cs| >= 1;
      SavedListsSplit(cs);
      assert SeededInputs(DisplayNames(cs), ColNums(cs)) == ReopenedColumns(cs);
    }
  }

  /** Saving a reopened list writes the same two column settings again. */
  lemma ReopenedListsResave(cs: seq<ColumnInput>)
    ensures OrderList(ReopenedColumns(cs)) == OrderList(cs)
    ensures NameList(ReopenedColumns(cs)) == NameList(cs)
  {
    assert ColNums(ReopenedColumns(cs)) == ColNums(cs);
    assert DisplayNames(ReopenedColumns(cs)) == DisplayNames(cs);
  }

  /** Save, reopen, save: the second save writes exactly the settings of the
      first, provided the column list survives the joining and the row-header
      input holds the saved count again. */
  lemma ResaveIsIdentity(store: Store, f: FormState, prior: FormState)
    requires Reopenable(f.columns)
    requires prior.fields.colCountRowHeader == f.fields.colCountRowHeader
    ensures Saved(Saved(store, f), RestoredState(Saved(store, f), prior)) == Saved(store, f)
  {
    var saved := Saved(store, f);
    SavedSavesForm(store, f);
    ReopenedValues(saved, f, prior);
    SavedForgets(saved, RestoredState(saved, prior), store, f);
  }

  /** The form reopened on a saved form gives every key the value the saved form
      gave it. */
  lemma ReopenedValues(s: Store, f: FormState, prior: FormState)
    requires SavesForm(s, f)
    requires Reopenable(f.columns)
    requires prior.fields.colCountRowHeader == f.fields.colCountRowHeader
    ensures forall k :: SavedValue(RestoredState(s, prior), k) == SavedValue(f, k)
  {
    var g := RestoredState(s, prior);
    FlagsRoundTrip(s, f, prior);
    FieldsRoundTrip(s, f, prior);
    ColumnsRoundTrip(s, f, prior);
    ReopenedListsResave(f.columns);
    SameValues(f, g);
  }

  /** Two forms that agree on the boxes, on every saved input (the page size up
      to its default) and on the two joined column lists give every key the same
      value. */
  lemma SameValues(f: FormState, g: FormState)
    requires g.checked == f.checked
    requires g.fields == f.fields.(itemsPerPage := PageSizeOrDefault(f.fields.itemsPerPage))
    requires OrderList(g.columns) == OrderList(f.columns) && NameList(g.columns) == NameList(f.columns)
    ensures forall k :: SavedValue(g, k) == SavedValue(f, k)
  {
    assert PageSizeOrDefault(g.fields.itemsPerPage) == PageSizeOrDefault(f.fields.itemsPerPage);
  }

  /** The grid reads back what the dialog saved: each export button is offered
      exactly when its box was ticked, the custom button exactly when its text
      is non-empty, the checkbox column only for the literal input "Y", the
      action column for a non-empty action element, and the table gets the
      classes of the styling boxes. */
  lemma GridReadsSaved(s: Store, f: FormState)
    requires SavesForm(s, f)
    ensures IsYes(s, Flag(CopyBtn)) <==> CopyBtn in f.checked
    ensures IsYes(s, Flag(ExportCsvBtn)) <==> ExportCsvBtn in f.checked
    ensures IsYes(s, Flag(ExportExcelBtn)) <==> ExportExcelBtn in f.checked
    ensures IsYes(s, Flag(ExportPdfBtn)) <==> ExportPdfBtn in f.checked
    ensures IsYes(s, Flag(PrintBtn)) <==> PrintBtn in f.checked
    ensures IsSet(s, SelectBtnText) <==> f.fields.selectBtnText != ""
    ensures Grid.CheckboxOn(s) <==> f.fields.checkboxColumn == "Y"
    ensures Grid.ActionOn(s) <==> f.fields.actionElement != ""
    ensures IsSet(s, Worksheet) <==> f.fields.worksheet != ""
    ensures Get(s, TableClasses) == Some(StyleClasses(f.checked))
  {
    assert s[Flag(CopyBtn)] == YesNo(CopyBtn in f.checked);
    assert s[Flag(ExportCsvBtn)] == YesNo(ExportCsvBtn in f.checked);
    assert s[Flag(ExportExcelBtn)] == YesNo(ExportExcelBtn in f.checked);
    assert s[Flag(ExportPdfBtn)] == YesNo(ExportPdfBtn in f.checked);
    assert s[Flag(PrintBtn)] == YesNo(PrintBtn in f.checked);
    assert s[SelectBtnText] == f.fields.selectBtnText;
    assert s[CheckboxColumn] == f.fields.checkboxColumn;
    assert s[ActionElement] == f.fields.actionElement;
    assert s[Worksheet] == f.fields.worksheet;
    assert s[TableClasses] == StyleClasses(f.checked);
  }

  /** The counters 1 to `n`, as `columnsUpdate` writes them into `col_num`. */
  function Counters(n: nat): seq<string>
  {
    seq(n, k requires 0 <= k < n => Decimal(k + 1))
  }

  /** A worksheet's columns, listed by `columnsUpdate` and saved untouched, are
      saved as the counters 1, 2, ... in source order. */
  lemma NumberedOrderSaved(fieldNames: seq<string>)
    requires |fieldNames| >= 1
    ensures Split(OrderList(NumberedInputs(fieldNames)), '|') == Counters(|fieldNames|)
    ensures forall k :: 0 <= k < |fieldNames| ==> DigitsValue(Counters(|fieldNames|)[k]) == k + 1
  {
    var nums := Counters(|fieldNames|);
    assert ColNums(NumberedInputs(fieldNames)) == nums;
    forall k | 0 <= k < |nums|
      ensures '|' !in nums[k]
    {
      NoPipeInDecimal(k + 1);
    }
    SplitJoin(nums, '|');
    forall k | 0 <= k < |nums|
      ensures DigitsValue(nums[k]) == k + 1
    {
      DecimalValue(k + 1);
    }
  }

  /** ... and as the field names themselves, pipe-joined. */
  lemma NumberedNamesSaved(fieldNames: seq<string>)
    ensures NameList(NumberedInputs(fieldNames)) == Join(fieldNames, '|')
  {
    assert DisplayNames(NumberedInputs(fieldNames)) == fieldNames;
  }

  /** A decimal counter holds no pipe. */
  lemma NoPipeInDecimal(n: nat)
    ensures '|' !in Decimal(n)
  {
    var s := Decimal(n);
    assert forall k :: 0 <= k < |s| ==> s[k] != '|';
  }
}
