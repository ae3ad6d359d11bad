/// The optional value used wherever the bridge returns `std::optional`, a null pointer or an
/// expired weak pointer.
module Wrappers {
  datatype Option<+T> = None | Some(value: T)
}
