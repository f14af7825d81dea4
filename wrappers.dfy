/** Option and Result, the two wrappers the model needs: Option for syn's
    optional parts of a syntax tree (a field's identifier, a path's qualified
    self type), Result for a derivation that either expands or reports a
    compile error. */
module Wrappers {

  datatype Option<+T> = None | Some(value: T)

  datatype Result<+T, +E> = Ok(value: T) | Err(error: E)
}
