/** Optional values: the model's stand-in for a null pointer or an empty `std::unique_ptr`. */
module Wrappers {

  datatype Option<+T> = None | Some(value: T)
}
