/** An optional value, used for "this detection yields no length sample". */
module Wrappers {

  datatype Option<+T> = None | Some(value: T)

}
