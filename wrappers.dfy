/** An optional value: `None` stands for a missing value or a NaN in the source's arrays. */
module Wrappers {

  datatype Option<+T> = None | Some(value: T)

}
