/** A nullable value: PHP's `?T` types (`?int`, `?string`) become `Option<T>`. */
module Wrappers {

  datatype Option<+T> = None | Some(value: T)
}
