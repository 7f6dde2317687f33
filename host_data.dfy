/**
 * The host's data-view shapes that the slicer reads. Every level the host may
 * leave out is an `Option`; an object name or property name that is absent from
 * its map reads as `undefined`.
 */
module HostData {
  import opened Wrappers
  import opened JsValues

  /** Property name to value: one object of the format pane (DataViewObject). */
  type DataViewObject = map<string, Value>

  /** Object name to object: the user's settings (DataViewObjects). */
  type DataViewObjects = map<string, DataViewObject>

  datatype Metadata = Metadata(objects: Option<DataViewObjects>)

  /** One category column: its row values and, optionally, per-row settings. */
  datatype CategoryColumn = CategoryColumn(values: seq<int>, objects: Option<seq<Option<DataViewObjects>>>)

  datatype Categorical = Categorical(categories: Option<seq<Option<CategoryColumn>>>)

  datatype DataView = DataView(metadata: Option<Metadata>, categorical: Option<Categorical>)

  /** The payload of one host update; the viewport is not modelled. */
  datatype UpdateOptions = UpdateOptions(dataViews: Option<seq<Option<DataView>>>)
}
