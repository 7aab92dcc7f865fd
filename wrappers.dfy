/** The absent-or-present value used at every host boundary where the plugin
    works with a nullable reference. */
module Wrappers {

  datatype Option<+T> = None | Some(value: T)

}
