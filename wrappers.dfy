/** The optional result used wherever the library panics: `None` stands for
    the panic, `Some(v)` for a normal return of `v`. */
module Wrappers {
  datatype Option<T> = None | Some(value: T)
}
