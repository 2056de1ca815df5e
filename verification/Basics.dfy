/**
 The few types all parts share: optional values, adapter names and the kinds of data they serve.
 */
module Basics {
  datatype Option<+T> = None | Some(value: T)

  datatype Name = Name(text: string)

  datatype Capability = Quote | Dividend | Yield | History
}
