/** The optional-value datatype used wherever the device code tests a value
    for NULL (a parsed document, the SmartConfig callback's `pdata`). */
module Wrappers {

  datatype Option<+T> = None | Some(value: T)
}
