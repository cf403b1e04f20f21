/** The usual optional-value datatype, used for parses that may fail and for
    chart fields that start out unset (null in the chart class). */
module Wrappers {

  datatype Option<+T> = None | Some(value: T)

}
