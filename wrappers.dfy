/** Optional values and value-or-error results: the shapes that std::optional, raw
    pointers that may be null, and WTF's Expected<T, E> take in this model. */
module Wrappers {

  datatype Option<+T> = None | Some(value: T)

  /** Either a value or an error, never both (Expected<T, E>). */
  datatype Result<+T, +E> = Ok(value: T) | Err(error: E)
}
