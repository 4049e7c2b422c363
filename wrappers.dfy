/** The optional result every screener returns for one symbol: `None` or a record. */
module Wrappers {

  datatype Option<+T> = None | Some(value: T)
}
