/** Optional values and results shared by the whole model. `None` stands for
    JavaScript's `null` / `undefined`; `Err` for a thrown `Error`. */
module Wrappers {

  datatype Option<+T> = None | Some(value: T)

  datatype Result<+T, +E> = Ok(value: T) | Err(error: E)
}
