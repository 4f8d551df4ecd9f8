/**
 * The parts of an execution response and an execution result that the geo
 * chart reads. Both are produced by the query engine and never changed here.
 */
module Execution {
  import opened Wrappers

  /** One entry of a header-item list: the label of one row of a dimension. */
  datatype HeaderItem =
    | AttributeHeaderItem(name: string, uri: string)
    | MeasureHeaderItem(name: string, order: int)
    | TotalHeaderItem(name: string, totalType: string)

  /**
   * The result's `data`: either a flat list of cells or one list of cells per
   * measure. Cells are kept as the strings the engine sends.
   */
  datatype ResultData =
    | OneDimension(values: seq<string>)
    | TwoDimensions(series: seq<seq<string>>)

  /** `isTwoDimensionsData`. */
  predicate IsTwoDimensionsData(data: ResultData)
  {
    data.TwoDimensions?
  }

  /** `headerItems[d][a][row]`: dimension, attribute position, row. */
  datatype ExecutionResult = ExecutionResult(data: ResultData, headerItems: seq<seq<seq<HeaderItem>>>)

  /** An attribute header of the response's dimensions. */
  datatype AttributeHeader = AttributeHeader(localIdentifier: string, uri: string, name: string)

  /** A measure of the response's measure group; derived measures have no uri. */
  datatype MeasureHeader = MeasureHeader(localIdentifier: string, uri: Option<string>, name: string)
}
