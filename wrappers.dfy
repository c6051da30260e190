/** The optional value used for every key an incoming event may lack. */
module Wrappers {

  datatype Option<+T> = None | Some(value: T)
}
