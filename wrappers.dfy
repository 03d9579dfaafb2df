/** Helper datatypes shared by the other modules: `Option` stands for a
    TypeScript `T | null` (or `T | undefined`), `Result` for a call that may throw. */
module Wrappers {

  datatype Option<+T> = None | Some(value: T)

  datatype Result<+T, +E> = Success(value: T) | Failure(error: E)
}
