/** An optional value: the single row a point query fetches, or nothing. */
module Wrappers {

  datatype Option<+T> = None | Some(value: T)

}
