/** The configuration dialog (js/dialog.js): the form it shows, how `buildDialog`
    fills it from the settings, how `columnsUpdate` lists a worksheet's columns,
    and how `saveButton` writes the form back into the settings store. */
module Dialog {
  import opened Settings
  import opened Text

  /** One text input of the sortable column list: what the user typed into it,
      its `id` attribute and its `col_num` attribute, both as strings. */
  datatype ColumnInput = ColumnInput(value: string, id: string, colNum: string)

  /** The dialog's single-valued inputs, named after the setting each is saved to. */
  datatype Fields = Fields(
    worksheet: string,
    worksheetFilter: string,
    itemsPerPage: string,
    actionElement: string,
    actionElementColumn: string,
    checkboxColumn: string,
    selectBtnText: string,
    colCountRowHeader: string)

  /** An option of the "number of columns for row header" dropdown. */
  datatype RowHeaderOption = RowHeaderOption(value: nat, selected: bool)

  /** Everything of the form that is saved or restored: the ticked checkboxes,
      the single-valued inputs, the column list in its on-screen order, and the
      row-header dropdown's options. */
  datatype FormState = FormState(
    checked: set<Box>,
    fields: Fields,
    columns: seq<ColumnInput>,
    rowHeaderOptions: seq<RowHeaderOption>)

  /** The styling checkboxes, in the order the save handler visits them and their
      classes enter `table-classes`. */
  const ClassBoxes: seq<Box> :=
    [Compact, Hover, Nowrap, OrderColumn, RowBorder, Stripe, IncludeTableName]

  /** The other checkboxes, in the order the save handler visits them. */
  const OtherBoxes: seq<Box> :=
    [ShowSearchBox, ShowFilterRow, CopyBtn, ExportExcelBtn, ExportCsvBtn,
     ExportPdfBtn, PrintBtn, ColvisBtn, CheckboxOptions, CheckboxApply]

  /** Every checkbox is in one of the two groups. */
  lemma BoxGroups(b: Box)
    ensures b in ClassBoxes || b in OtherBoxes
  {
  }

  function YesNo(checked: bool): string
  {
    if checked then "Y" else "N"
  }

  /** Whether a styling class enters `table-classes`: a ticked box adds its
      class, except Nowrap, whose class is added when the box is NOT ticked. */
  predicate ClassShown(box: Box, checked: set<Box>)
  {
    if box == Nowrap then box !in checked else box in checked
  }

  /** The styling classes that are shown, in the order of `boxes`. */
  function ShownClasses(boxes: seq<Box>, checked: set<Box>): seq<Box>
  {
    if boxes == [] then []
    else (if ClassShown(boxes[0], checked) then [boxes[0]] else []) + ShownClasses(boxes[1..], checked)
  }

  /** The shown classes are exactly the boxes that `ClassShown` admits. */
  lemma {:induction false} ShownMembers(boxes: seq<Box>, checked: set<Box>)
    ensures forall x :: x in ShownClasses(boxes, checked) <==> x in boxes && ClassShown(x, checked)
  {
    if boxes != [] {
      ShownMembers(boxes[1..], checked);
      assert boxes == [boxes[0]] + boxes[1..];
    }
  }

  /** The boxes' names, each preceded by one space. */
  function Words(boxes: seq<Box>): string
  {
    if boxes == [] then "" else " " + BoxName(boxes[0]) + Words(boxes[1..])
  }

  function Names(boxes: seq<Box>): seq<string>
  {
    seq(|boxes|, i requires 0 <= i < |boxes| => BoxName(boxes[i]))
  }

  /** The `table-classes` setting. */
  function StyleClasses(checked: set<Box>): string
  {
    Words(ShownClasses(ClassBoxes, checked))
  }

  /** The class a styling box contributes on its own: " name" or nothing. */
  function ClassToken(box: Box, checked: set<Box>): string
  {
    if ClassShown(box, checked) then " " + BoxName(box) else ""
  }

  lemma {:induction false} WordsAppend(a: seq<Box>, b: seq<Box>)
    ensures Words(a + b) == Words(a) + Words(b)
  {
    if a != [] {
      assert (a + b)[1..] == a[1..] + b;
      WordsAppend(a[1..], b);
    } else {
      assert a + b == b;
    }
  }

  lemma {:induction false} ShownAppend(a: seq<Box>, b: seq<Box>, checked: set<Box>)
    ensures ShownClasses(a + b, checked) == ShownClasses(a, checked) + ShownClasses(b, checked)
  {
    if a != [] {
      var head := if ClassShown(a[0], checked) then [a[0]] else [];
      assert (a + b)[0] == a[0];
      assert (a + b)[1..] == a[1..] + b;
      ShownAppend(a[1..], b, checked);
      assert ShownClasses(a + b, checked) == head + ShownClasses(a[1..] + b, checked);
      assert ShownClasses(a, checked) == head + ShownClasses(a[1..], checked);
    } else {
      assert a + b == b;
    }
  }

  /** The classes of the boxes `boxes`, appended one box at a time. */
  function Tokens(boxes: seq<Box>, checked: set<Box>): string
  {
    if boxes == [] then ""
    else Tokens(boxes[..|boxes| - 1], checked) + ClassToken(boxes[|boxes| - 1], checked)
  }

  lemma {:induction false} WordsShown(boxes: seq<Box>, checked: set<Box>)
    ensures Words(ShownClasses(boxes, checked)) == Tokens(boxes, checked)
  {
    if boxes != [] {
      var prefix, last := boxes[..|boxes| - 1], boxes[|boxes| - 1];
      assert boxes == prefix + [last];
      ShownAppend(prefix, [last], checked);
      WordsAppend(ShownClasses(prefix, checked), ShownClasses([last], checked));
      WordsShown(prefix, checked);
      assert [last][1..] == [];
      if ClassShown(last, checked) {
        assert ShownClasses([last], checked) == [last];
        assert [last][1..] == [];
      }
    }
  }

  /** Appending box `k`'s class to the classes of the boxes before it. */
  lemma TokensStep(boxes: seq<Box>, k: nat, checked: set<Box>)
    requires k < |boxes|
    ensures Tokens(boxes[..k + 1], checked) == Tokens(boxes[..k], checked) + ClassToken(boxes[k], checked)
  {
    assert boxes[..k + 1][..k] == boxes[..k];
  }

  lemma TokensOfSeven(fs: seq<Box>, checked: set<Box>)
    requires |fs| == 7
    ensures Tokens(fs, checked) ==
      "" + ClassToken(fs[0], checked) + ClassToken(fs[1], checked) + ClassToken(fs[2], checked) +
      ClassToken(fs[3], checked) + ClassToken(fs[4], checked) + ClassToken(fs[5], checked) + ClassToken(fs[6], checked)
  {
    assert fs[..7] == fs;
    assert fs[..0] == [];
    TokensStep(fs, 0, checked);
    TokensStep(fs, 1, checked);
    TokensStep(fs, 2, checked);
    TokensStep(fs, 3, checked);
    TokensStep(fs, 4, checked);
    TokensStep(fs, 5, checked);
    TokensStep(fs, 6, checked);
  }

  /** `table-classes` is the classes of the seven styling boxes, appended one box
      at a time in their fixed order, as the save handler builds it. */
  lemma StyleClassesByBox(checked: set<Box>)
    ensures StyleClasses(checked) ==
      "" + ClassToken(Compact, checked) + ClassToken(Hover, checked) + ClassToken(Nowrap, checked) +
      ClassToken(OrderColumn, checked) + ClassToken(RowBorder, checked) +
      ClassToken(Stripe, checked) + ClassToken(IncludeTableName, checked)
  {
    WordsShown(ClassBoxes, checked);
    TokensOfSeven(ClassBoxes, checked);
  }

  /** Space-prefixed names are the space-joined names after an empty first piece. */
  lemma {:induction false} WordsJoin(boxes: seq<Box>)
    ensures Words(boxes) == Join([""] + Names(boxes), ' ')
  {
    if boxes != [] {
      var names := Names(boxes);
      var rest := Names(boxes[1..]);
      WordsJoin(boxes[1..]);
      assert rest == names[1..];
      assert ([""] + names)[1..] == names;
      if |boxes| == 1 {
        assert Words(boxes[1..]) == "";
        assert Join([""] + names, ' ') == "" + [' '] + names[0];
      } else {
        assert ([""] + rest)[1..] == rest;
        assert Words(boxes[1..]) == "" + [' '] + Join(rest, ' ');
        assert Join(names, ' ') == names[0] + [' '] + Join(rest, ' ');
        assert Join([""] + names, ' ') == "" + [' '] + Join(names, ' ');
      }
    }
  }

  /** Splitting `table-classes` on spaces recovers the names of the shown
      classes in their fixed order, behind the empty piece before the leading space. */
  lemma StyleClassesSplit(checked: set<Box>)
    ensures Split(StyleClasses(checked), ' ') == [""] + Names(ShownClasses(ClassBoxes, checked))
  {
    var shown := ShownClasses(ClassBoxes, checked);
    var pieces := [""] + Names(shown);
    ShownMembers(ClassBoxes, checked);
    WordsJoin(shown);
    forall i | 0 <= i < |pieces|
      ensures ' ' !in pieces[i]
    {
      if i > 0 {
        assert pieces[i] == BoxName(shown[i - 1]);
        ClassNameIsWord(shown[i - 1]);
      }
    }
    SplitJoin(pieces, ' ');
  }

  /** A styling class is among the pieces of `table-classes` exactly when
      `ClassShown` says so. */
  lemma StyleClassPresent(checked: set<Box>, k: Box)
    requires k in ClassBoxes
    ensures BoxName(k) in Split(StyleClasses(checked), ' ') <==> ClassShown(k, checked)
  {
    var shown := ShownClasses(ClassBoxes, checked);
    StyleClassesSplit(checked);
    ShownMembers(ClassBoxes, checked);
    if ClassShown(k, checked) {
      NamedAmong(shown, k);
    } else {
      NotNamedAmong(shown, k);
    }
  }

  /** The name of a box among `shown` is among the pieces. */
  lemma NamedAmong(shown: seq<Box>, k: Box)
    requires k in shown
    ensures BoxName(k) in [""] + Names(shown)
  {
    var i :| 0 <= i < |shown| && shown[i] == k;
    assert ([""] + Names(shown))[i + 1] == BoxName(k);
  }

  /** The name of a styling box missing from `shown`, all styling boxes, is not. */
  lemma NotNamedAmong(shown: seq<Box>, k: Box)
    requires k in ClassBoxes && k !in shown
    requires forall x :: x in shown ==> x in ClassBoxes
    ensures BoxName(k) !in [""] + Names(shown)
  {
    var pieces := [""] + Names(shown);
    forall i | 0 <= i < |pieces|
      ensures pieces[i] != BoxName(k)
    {
      if i == 0 {
        assert pieces[i] != BoxName(k) by {
          ClassNameIsWord(k);
        }
      } else {
        assert pieces[i] != BoxName(k) by {
          assert pieces[i] == BoxName(shown[i - 1]);
          ClassNamesDiffer(shown[i - 1], k);
        }
      }
    }
  }

  /** A styling box's name is one non-empty word, fit to be a class. */
  lemma ClassNameIsWord(b: Box)
    requires b in ClassBoxes
    ensures |BoxName(b)| > 0 && ' ' !in BoxName(b)
  {
    match b
    case Compact => assert BoxName(b) == "compact";
    case Hover => assert BoxName(b) == "hover";
    case Nowrap => assert BoxName(b) == "nowrap";
    case OrderColumn => assert BoxName(b) == "order-column";
    case RowBorder => assert BoxName(b) == "row-border";
    case Stripe => assert BoxName(b) == "stripe";
    case IncludeTableName => assert BoxName(b) == "include-table-name";
    case _ => assert false;
  }

  /** No two styling boxes share a name. */
  lemma ClassNamesDiffer(a: Box, b: Box)
    requires a in ClassBoxes && b in ClassBoxes && a != b
    ensures BoxName(a) != BoxName(b)
  {
  }

  /** `items-per-page` falls back to "5" when the input is empty. */
  function PageSizeOrDefault(input: string): (saved: string)
    ensures input == "" ==> saved == "5"
    ensures input != "" ==> saved == input
    ensures saved != ""
  {
    if input == "" then "5" else input
  }

  /** The name a column is saved under: what was typed, or else the input's id. */
  function DisplayName(c: ColumnInput): string
  {
    if |c.value| > 0 then c.value else c.id
  }

  function ColNums(cs: seq<ColumnInput>): seq<string>
  {
    seq(|cs|, k requires 0 <= k < |cs| => cs[k].colNum)
  }

  function DisplayNames(cs: seq<ColumnInput>): seq<string>
  {
    seq(|cs|, k requires 0 <= k < |cs| => DisplayName(cs[k]))
  }

  /** The `column-order` setting: the `col_num` attributes in list order, pipe-joined. */
  function OrderList(cs: seq<ColumnInput>): string
  {
    Join(ColNums(cs), '|')
  }

  /** The `column-names` setting: the display names in list order, pipe-joined. */
  function NameList(cs: seq<ColumnInput>): string
  {
    Join(DisplayNames(cs), '|')
  }

  lemma {:induction false} JoinSnoc(pieces: seq<string>, x: string, sep: char)
    requires |pieces| >= 1
    ensures Join(pieces + [x], sep) == Join(pieces, sep) + [sep] + x
  {
    if |pieces| > 1 {
      assert (pieces + [x])[1..] == pieces[1..] + [x];
      JoinSnoc(pieces[1..], x, sep);
    }
  }

  /** The save handler's loop over the column list: `column-order` and
      `column-names` accumulated one input at a time, a separator before every
      entry but the first. */
  method SerializeColumns(inputs: seq<ColumnInput>) returns (order: string, names: string)
    ensures order == OrderList(inputs)
    ensures names == NameList(inputs)
  {
    order := "";
    names := "";
    var counter := 0;
    while counter < |inputs|
      invariant 0 <= counter <= |inputs|
      invariant order == OrderList(inputs[..counter])
      invariant names == NameList(inputs[..counter])
    {
      var input := inputs[counter];
      assert ColNums(inputs[..counter + 1]) == ColNums(inputs[..counter]) + [input.colNum];
      assert DisplayNames(inputs[..counter + 1]) == DisplayNames(inputs[..counter]) + [DisplayName(input)];
      if counter == 0 {
        order := input.colNum;
      } else {
        JoinSnoc(ColNums(inputs[..counter]), input.colNum, '|');
        order := order + "|" + input.colNum;
      }
      if counter > 0 {
        JoinSnoc(DisplayNames(inputs[..counter]), DisplayName(input), '|');
      }
      if counter == 0 {
        if |input.value| > 0 {
          names := input.value;
        } else {
          names := input.id;
        }
      } else {
        if |input.value| > 0 {
          names := names + "|" + input.value;
        } else {
          names := names + "|" + input.id;
        }
      }
      counter := counter + 1;
    }
    assert inputs[..counter] == inputs;
  }

  /** The column list `columnsUpdate` shows for a worksheet: one empty input per
      source column, with the field name as id and `col_num` 1, 2, ... in source order. */
  function NumberedInputs(fieldNames: seq<string>): seq<ColumnInput>
  {
    seq(|fieldNames|, k requires 0 <= k < |fieldNames| => ColumnInput("", fieldNames[k], Decimal(k + 1)))
  }

  /** The `forEach` of `columnsUpdate`, with its counter starting at 1. */
  method NumberColumns(fieldNames: seq<string>) returns (inputs: seq<ColumnInput>)
    ensures |inputs| == |fieldNames|
    ensures forall k :: 0 <= k < |inputs| ==> inputs[k] == ColumnInput("", fieldNames[k], Decimal(k + 1))
  {
    inputs := [];
    var counter := 1;
    var k := 0;
    while k < |fieldNames|
      invariant 0 <= k <= |fieldNames|
      invariant counter == k + 1
      invariant |inputs| == k
      invariant forall j :: 0 <= j < k ==> inputs[j] == ColumnInput("", fieldNames[j], Decimal(j + 1))
    {
      inputs := inputs + [ColumnInput("", fieldNames[k], Decimal(counter))];
      counter := counter + 1;
      k := k + 1;
    }
  }

  /** The column list `buildDialog` seeds from the stored lists: one empty input
      per stored name, with the name as id and the stored order entry at the same
      position as `col_num` ("undefined" past the end of the order list). */
  function SeededInputs(names: seq<string>, order: seq<string>): seq<ColumnInput>
  {
    seq(|names|, k requires 0 <= k < |names| =>
      ColumnInput("", names[k], if k < |order| then order[k] else "undefined"))
  }

  /** The row-header dropdown options appended for `count` stored names: the
      values 1 to `count`, an option selected when the stored setting is its number. */
  function OfferedOptions(count: nat, stored: Option<string>): seq<RowHeaderOption>
  {
    seq(count, k requires 0 <= k < count => RowHeaderOption(k + 1, stored == Some(Decimal(k + 1))))
  }

  /** At most one row-header option is selected, whatever is stored: different
      option numbers render as different strings. */
  lemma OneOptionSelected(count: nat, stored: Option<string>)
    ensures forall i, j ::
      0 <= i < count && 0 <= j < count &&
      OfferedOptions(count, stored)[i].selected && OfferedOptions(count, stored)[j].selected
      ==> i == j
  {
    var options := OfferedOptions(count, stored);
    forall i, j | 0 <= i < count && 0 <= j < count && options[i].selected && options[j].selected
      ensures i == j
    {
      DecimalInjective(i + 1, j + 1);
    }
  }

  /** `buildDialog`'s loop over the stored column names. */
  method SeedColumns(names: seq<string>, order: seq<string>, stored: Option<string>)
    returns (inputs: seq<ColumnInput>, options: seq<RowHeaderOption>)
    ensures |inputs| == |names| && |options| == |names|
    ensures forall k :: 0 <= k < |names| ==>
      inputs[k].value == "" && inputs[k].id == names[k] &&
      inputs[k].colNum == (if k < |order| then order[k] else "undefined")
    ensures forall k :: 0 <= k < |names| ==>
      options[k].value == k + 1 && (options[k].selected <==> stored == Some(Decimal(k + 1)))
  {
    inputs := [];
    options := [];
    var i := 0;
    while i < |names|
      invariant 0 <= i <= |names|
      invariant |inputs| == i && |options| == i
      invariant forall k :: 0 <= k < i ==>
        inputs[k].value == "" && inputs[k].id == names[k] &&
        inputs[k].colNum == (if k < |order| then order[k] else "undefined")
      invariant forall k :: 0 <= k < i ==>
        options[k].value == k + 1 && (options[k].selected <==> stored == Some(Decimal(k + 1)))
    {
      var colNum := if i < |order| then order[i] else "undefined";
      inputs := inputs + [ColumnInput("", names[i], colNum)];
      options := options + [RowHeaderOption(i + 1, stored == Some(Decimal(i + 1)))];
      i := i + 1;
    }
  }

  /** `.val(settings.get(key))`: the stored string, or "" for a missing key. */
  function FieldValue(store: Store, key: Key): string
  {
    if key in store then store[key] else ""
  }

  /** The checkbox states after the flag restore: each box ticked exactly when
      its stored flag is "Y"; a missing flag unticks it. */
  function RestoredChecked(store: Store): set<Box>
  {
    set b: Box | IsYes(store, Flag(b))
  }

  /** Whether `buildDialog` runs to its end: it stops with an error when a
      non-empty `column-order` is stored without `column-names`. It then never
      reaches the end of the handler, where the save and worksheet-change handlers
      are attached, so that dialog can neither save nor list columns. */
  predicate BuildCompletes(store: Store)
  {
    !(IsSet(store, ColumnOrder) && ColumnNames !in store)
  }

  /** The form after `buildDialog`. */
  function RestoredState(store: Store, prior: FormState): FormState
  {
    var checked := if Worksheet in store then RestoredChecked(store) else prior.checked;
    if !BuildCompletes(store) then
      prior.(checked := checked)
    else
      var seeded := IsSet(store, ColumnOrder);
      var names := if seeded then Split(store[ColumnNames], '|') else [];
      var order := if seeded then Split(store[ColumnOrder], '|') else [];
      FormState(
        checked,
        prior.fields.(
          worksheet := FieldValue(store, Worksheet),
          worksheetFilter := FieldValue(store, WorksheetFilter),
          itemsPerPage := FieldValue(store, ItemsPerPage),
          actionElement := FieldValue(store, ActionElement),
          actionElementColumn := FieldValue(store, ActionElementColumn),
          checkboxColumn := FieldValue(store, CheckboxColumn),
          selectBtnText := FieldValue(store, SelectBtnText)),
        if seeded then SeededInputs(names, order) else prior.columns,
        if seeded then prior.rowHeaderOptions + OfferedOptions(|names|, Get(store, ColCountRowHeader))
        else prior.rowHeaderOptions)
  }

  /** The settings after `saveButton`: its five groups of writes, in the
      handler's order. */
  function Saved(store: Store, f: FormState): Store
  {
    SavedColumns(SavedInputs(SavedOtherFlags(SavedStyling(SavedData(store, f), f), f), f), f)
  }

  /** The worksheet and its filter. */
  function SavedData(store: Store, f: FormState): Store
  {
    store[Worksheet := f.fields.worksheet][WorksheetFilter := f.fields.worksheetFilter]
  }

  /** One box saved as a "Y" or "N" flag under its id. */
  function FlagWrite(store: Store, box: Box, checked: set<Box>): Store
  {
    store[Flag(box) := YesNo(box in checked)]
  }

  /** Each box of `boxes` saved in turn. */
  function FlagWrites(store: Store, boxes: seq<Box>, checked: set<Box>): Store
  {
    if boxes == [] then store
    else FlagWrite(FlagWrites(store, boxes[..|boxes| - 1], checked), boxes[|boxes| - 1], checked)
  }

  /** After the writes, the flag of every written box says whether it is ticked,
      and every other key is as before. */
  lemma {:induction false} FlagWritesLookup(store: Store, boxes: seq<Box>, checked: set<Box>, k: Key)
    ensures k in FlagWrites(store, boxes, checked) <==> k in store || (k.Flag? && k.box in boxes)
    ensures k.Flag? && k.box in boxes ==> FlagWrites(store, boxes, checked)[k] == YesNo(k.box in checked)
    ensures !(k.Flag? && k.box in boxes) && k in store ==> FlagWrites(store, boxes, checked)[k] == store[k]
  {
    if boxes != [] {
      var prefix, last := boxes[..|boxes| - 1], boxes[|boxes| - 1];
      assert boxes == prefix + [last];
      FlagWritesLookup(store, prefix, checked, k);
    }
  }

  lemma FlagWritesStep(store: Store, boxes: seq<Box>, k: nat, checked: set<Box>)
    requires k < |boxes|
    ensures FlagWrites(store, boxes[..k + 1], checked) ==
      FlagWrite(FlagWrites(store, boxes[..k], checked), boxes[k], checked)
  {
    assert boxes[..k + 1][..k] == boxes[..k];
  }

  /** The writes of seven boxes, one at a time. */
  lemma FlagWritesOfSeven(store: Store, bs: seq<Box>, c: set<Box>)
    requires |bs| == 7
    ensures FlagWrites(store, bs, c) ==
      FlagWrite(FlagWrite(FlagWrite(FlagWrite(FlagWrite(FlagWrite(FlagWrite(
        store, bs[0], c), bs[1], c), bs[2], c), bs[3], c), bs[4], c), bs[5], c), bs[6], c)
  {
    assert bs[..0] == [];
    FlagWritesStep(store, bs, 0, c);
    var w1 := FlagWrite(store, bs[0], c);
    FlagWritesStep(store, bs, 1, c);
    var w2 := FlagWrite(w1, bs[1], c);
    assert FlagWrites(store, bs[..2], c) == w2;
    FlagWritesStep(store, bs, 2, c);
    var w3 := FlagWrite(w2, bs[2], c);
    assert FlagWrites(store, bs[..3], c) == w3;
    FlagWritesStep(store, bs, 3, c);
    var w4 := FlagWrite(w3, bs[3], c);
    assert FlagWrites(store, bs[..4], c) == w4;
    FlagWritesStep(store, bs, 4, c);
    var w5 := FlagWrite(w4, bs[4], c);
    assert FlagWrites(store, bs[..5], c) == w5;
    FlagWritesStep(store, bs, 5, c);
    FlagWritesStep(store, bs, 6, c);
    assert bs[..7] == bs;
  }

  /** The writes of ten boxes: those of the first seven, then three more, one at a time. */
  lemma FlagWritesOfTen(store: Store, bs: seq<Box>, c: set<Box>)
    requires |bs| == 10
    ensures FlagWrites(store, bs, c) ==
      FlagWrite(FlagWrite(FlagWrite(FlagWrites(store, bs[..7], c), bs[7], c), bs[8], c), bs[9], c)
  {
    assert bs[..10] == bs;
    FlagWritesStep(store, bs, 7, c);
    FlagWritesStep(store, bs, 8, c);
    FlagWritesStep(store, bs, 9, c);
  }

  /** The seven styling flags, then the classes they show. */
  function SavedStyling(store: Store, f: FormState): Store
  {
    FlagWrites(store, ClassBoxes, f.checked)[TableClasses := StyleClasses(f.checked)]
  }

  /** The search, filter, button and checkbox-column flags. */
  function SavedOtherFlags(store: Store, f: FormState): Store
  {
    FlagWrites(store, OtherBoxes, f.checked)
  }

  /** The single-valued inputs, with the page-size default. */
  function SavedInputs(store: Store, f: FormState): Store
  {
    store
      [ItemsPerPage := PageSizeOrDefault(f.fields.itemsPerPage)]
      [ActionElement := f.fields.actionElement]
      [ActionElementColumn := f.fields.actionElementColumn]
      [CheckboxColumn := f.fields.checkboxColumn]
      [SelectBtnText := f.fields.selectBtnText]
  }

  /** The row-header column count and the two pipe-joined column lists. */
  function SavedColumns(store: Store, f: FormState): Store
  {
    store
      [ColCountRowHeader := f.fields.colCountRowHeader]
      [ColumnOrder := OrderList(f.columns)]
      [ColumnNames := NameList(f.columns)]
  }

  /** One styling box of the save handler: a ticked box appends its class and is
      saved as "Y", an unticked one is saved as "N". */
  method SaveStyleBox(settings: SettingsStore, box: Box, checked: set<Box>, tableClass: string)
    returns (updated: string)
    requires box != Nowrap
    modifies settings
    ensures settings.entries == FlagWrite(old(settings.entries), box, checked)
    ensures updated == tableClass + ClassToken(box, checked)
  {
    if box in checked {
      updated := tableClass + " " + BoxName(box);
      settings.Set(Flag(box), "Y");
    } else {
      updated := tableClass;
      settings.Set(Flag(box), "N");
    }
  }

  /** The "nowrap" box works the other way round: its class is appended when the
      box is NOT ticked. */
  method SaveNowrapBox(settings: SettingsStore, checked: set<Box>, tableClass: string)
    returns (updated: string)
    modifies settings
    ensures settings.entries == FlagWrite(old(settings.entries), Nowrap, checked)
    ensures updated == tableClass + ClassToken(Nowrap, checked)
  {
    if Nowrap in checked {
      updated := tableClass;
      settings.Set(Flag(Nowrap), "Y");
    } else {
      updated := tableClass + " nowrap";
      settings.Set(Flag(Nowrap), "N");
    }
  }

  /** Any other box: saved as "Y" when ticked, "N" otherwise. */
  method SaveBox(settings: SettingsStore, box: Box, checked: set<Box>)
    modifies settings
    ensures settings.entries == FlagWrite(old(settings.entries), box, checked)
  {
    if box in checked {
      settings.Set(Flag(box), "Y");
    } else {
      settings.Set(Flag(box), "N");
    }
  }

  /** The dialog's form, updated in place by its handlers. */
  class DialogForm {
    var checked: set<Box>
    var fields: Fields
    var columns: seq<ColumnInput>
    var rowHeaderOptions: seq<RowHeaderOption>

    function State(): FormState
      reads this
    {
      FormState(checked, fields, columns, rowHeaderOptions)
    }

    constructor (initial: FormState)
      ensures State() == initial
    {
      checked := initial.checked;
      fields := initial.fields;
      columns := initial.columns;
      rowHeaderOptions := initial.rowHeaderOptions;
    }

    /** `buildDialog`: restore the flags (when a worksheet is stored), seed the
        column list and the row-header options (when a column order is stored),
        then restore the single-valued inputs. */
    method BuildDialog(settings: Store) returns (completed: bool)
      modifies this
      ensures completed == BuildCompletes(settings)
      ensures State() == RestoredState(settings, old(State()))
    {
      if Worksheet in settings {
        checked := RestoredChecked(settings);
      }
      if IsSet(settings, ColumnOrder) {
        if ColumnNames !in settings {
          return false;
        }
        var names := Split(settings[ColumnNames], '|');
        var order := Split(settings[ColumnOrder], '|');
        var inputs, options := SeedColumns(names, order, Get(settings, ColCountRowHeader));
        assert inputs == SeededInputs(names, order);
        assert options == OfferedOptions(|names|, Get(settings, ColCountRowHeader));
        columns := inputs;
        rowHeaderOptions := rowHeaderOptions + options;
      }
      fields := fields.(
        worksheet := FieldValue(settings, Worksheet),
        worksheetFilter := FieldValue(settings, WorksheetFilter),
        itemsPerPage := FieldValue(settings, ItemsPerPage),
        actionElement := FieldValue(settings, ActionElement),
        actionElementColumn := FieldValue(settings, ActionElementColumn),
        checkboxColumn := FieldValue(settings, CheckboxColumn),
        selectBtnText := FieldValue(settings, SelectBtnText));
      completed := true;
    }

    /** `columnsUpdate`: the column list replaced by the worksheet's columns,
        numbered from 1 in source order. */
    method ColumnsUpdate(fieldNames: seq<string>)
      modifies this`columns
      ensures columns == NumberedInputs(fieldNames)
    {
      columns := NumberColumns(fieldNames);
    }

    /** `saveButton`: every flag as "Y"/"N", the styling classes, the single-valued
        inputs and the joined column lists written into the store. */
    method SaveButton(settings: SettingsStore)
      modifies settings
      ensures settings.entries == Saved(old(settings.entries), State())
    {
      settings.Set(Worksheet, fields.worksheet);
      settings.Set(WorksheetFilter, fields.worksheetFilter);
      SaveStyling(settings);
      SaveOtherFlags(settings);
      SaveInputs(settings);
      SaveColumns(settings);
    }

    /** The seven styling boxes, each saved as a flag and its class (if shown)
        appended to `tableClass`, then `table-classes` saved. */
    method SaveStyling(settings: SettingsStore)
      modifies settings
      ensures settings.entries == SavedStyling(old(settings.entries), State())
    {
      ghost var start := settings.entries;
      var tableClass := "";
      tableClass := SaveStyleBox(settings, Compact, checked, tableClass);
      tableClass := SaveStyleBox(settings, Hover, checked, tableClass);
      tableClass := SaveNowrapBox(settings, checked, tableClass);
      tableClass := SaveStyleBox(settings, OrderColumn, checked, tableClass);
      tableClass := SaveStyleBox(settings, RowBorder, checked, tableClass);
      tableClass := SaveStyleBox(settings, Stripe, checked, tableClass);
      tableClass := SaveStyleBox(settings, IncludeTableName, checked, tableClass);
      assert settings.entries == FlagWrites(start, ClassBoxes, checked) by {
        FlagWritesOfSeven(start, ClassBoxes, checked);
      }
      assert tableClass == StyleClasses(checked) by {
        StyleClassesByBox(checked);
      }
      settings.Set(TableClasses, tableClass);
    }

    /** The ten other boxes, each saved as a flag. */
    method SaveOtherFlags(settings: SettingsStore)
      modifies settings
      ensures settings.entries == SavedOtherFlags(old(settings.entries), State())
    {
      SaveBox(settings, ShowSearchBox, checked);
      SaveBox(settings, ShowFilterRow, checked);
      SaveBox(settings, CopyBtn, checked);
      SaveBox(settings, ExportExcelBtn, checked);
      SaveBox(settings, ExportCsvBtn, checked);
      SaveBox(settings, ExportPdfBtn, checked);
      SaveBox(settings, PrintBtn, checked);
      SaveBox(settings, ColvisBtn, checked);
      SaveBox(settings, CheckboxOptions, checked);
      SaveBox(settings, CheckboxApply, checked);
      FlagWritesOfSeven(old(settings.entries), OtherBoxes[..7], checked);
      FlagWritesOfTen(old(settings.entries), OtherBoxes, checked);
    }

    /** The single-valued inputs; an empty page size is saved as "5". */
    method SaveInputs(settings: SettingsStore)
      modifies settings
      ensures settings.entries == SavedInputs(old(settings.entries), State())
    {
      var itemsPerPage := fields.itemsPerPage;
      if itemsPerPage == "" {
        itemsPerPage := "5";
      }
      settings.Set(ItemsPerPage, itemsPerPage);
      settings.Set(ActionElement, fields.actionElement);
      settings.Set(ActionElementColumn, fields.actionElementColumn);
      settings.Set(CheckboxColumn, fields.checkboxColumn);
      settings.Set(SelectBtnText, fields.selectBtnText);
    }

    /** The column list serialised in on-screen order, then the row-header count
        and the two lists saved. */
    method SaveColumns(settings: SettingsStore)
      modifies settings
      ensures settings.entries == SavedColumns(old(settings.entries), State())
    {
      var order, names := SerializeColumns(columns);
      settings.Set(ColCountRowHeader, fields.colCountRowHeader);
      settings.Set(ColumnOrder, order);
      settings.Set(ColumnNames, names);
    }
  }
}
