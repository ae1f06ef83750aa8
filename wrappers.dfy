/** Optional values: the model's stand-in for JavaScript's `undefined`/`false`
    and Python's `None`/`False` where the source uses them as "no value". */
module Wrappers {

  datatype Option<+T> = None | Some(value: T)
}
