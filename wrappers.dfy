/** Optional values: the model's stand-in for the nullable pointers and
    protobuf wrapper messages of the translated configuration, where "not
    set" is a different state from "set to the zero value". */
module Wrappers {

  datatype Option<+T> = None | Some(value: T)

}
