/** Optional values: `None` stands for a value the source leaves undefined
    (or, for number parsing, JavaScript's NaN). */
module Wrappers {

  datatype Option<+T> = None | Some(value: T)
}
