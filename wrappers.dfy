/** Option, used for values that the dashboard may lack (an unset device address)
    and for lookups that throw in the dashboard (a missing translation table). */
module Wrappers {

  datatype Option<+T> = None | Some(value: T)
}
