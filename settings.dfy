/** The extension's settings: a key/value store of strings, scoped to one
    extension instance. Reading a key that was never set gives `undefined`. */
module Settings {

  datatype Option<T> = None | Some(value: T)

  /** The dialog's checkboxes, named after their ids. */
  datatype Box =
    | Compact | Hover | Nowrap | OrderColumn | RowBorder | Stripe | IncludeTableName
    | ShowSearchBox | ShowFilterRow | CopyBtn | ExportExcelBtn | ExportCsvBtn | ExportPdfBtn | PrintBtn
    | ColvisBtn | CheckboxOptions | CheckboxApply

  /** The names under which the extension stores its settings: one flag per
      checkbox, stored under the checkbox's id (`BoxName`), and the text settings,
      stored in declaration order under "worksheet", "worksheet-filter",
      "table-classes", "items-per-page", "action-element", "action-element-column",
      "checkbox-column", "select-btn-text", "col-count-row-header", "column-order"
      and "column-names". These strings are pairwise distinct, which is what lets an
      enumeration stand for them. The grid and the dialog read and write no other key. */
  datatype Key =
    | Flag(box: Box)
    | Worksheet | WorksheetFilter | TableClasses
    | ItemsPerPage | ActionElement | ActionElementColumn | CheckboxColumn | SelectBtnText
    | ColCountRowHeader | ColumnOrder | ColumnNames

  /** The checkbox's id, which is also the name of the class a styling box adds. */
  function BoxName(b: Box): string
  {
    match b
    case Compact => "compact"
    case Hover => "hover"
    case Nowrap => "nowrap"
    case OrderColumn => "order-column"
    case RowBorder => "row-border"
    case Stripe => "stripe"
    case IncludeTableName => "include-table-name"
    case ShowSearchBox => "show-search-box"
    case ShowFilterRow => "show-filter-row"
    case CopyBtn => "copy-btn"
    case ExportExcelBtn => "export-excel-btn"
    case ExportCsvBtn => "export-csv-btn"
    case ExportPdfBtn => "export-pdf-btn"
    case PrintBtn => "print-btn"
    case ColvisBtn => "colvis-btn"
    case CheckboxOptions => "checkbox-options"
    case CheckboxApply => "checkbox-apply"
  }

  /** A snapshot of the store, as the grid reads it on each render. */
  type Store = map<Key, string>

  /** `settings.get(key)`: the stored string, or `undefined`. */
  function Get(store: Store, key: Key): Option<string>
  {
    if key in store then Some(store[key]) else None
  }

  /** `settings.get(key) == "Y"`: a flag read back; a missing key is not "Y". */
  predicate IsYes(store: Store, key: Key)
  {
    key in store && store[key] == "Y"
  }

  /** The JavaScript truthiness of `settings.get(key)`: present and non-empty. */
  predicate IsSet(store: Store, key: Key)
  {
    key in store && store[key] != ""
  }

  /** The live settings object that the dialog writes into. */
  class SettingsStore {
    var entries: Store

    constructor (initial: Store)
      ensures entries == initial
    {
      entries := initial;
    }

    /** `settings.set(key, value)`: the key now maps to the value, nothing else changes. */
    method Set(key: Key, value: string)
      modifies this
      ensures entries == old(entries)[key := value]
    {
      entries := entries[key := value];
    }
  }
}
