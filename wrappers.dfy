/** The optional value used for "this line gives no row" and "std::stod throws". */
module Wrappers {

  datatype Option<T> = None | Some(value: T)
}
