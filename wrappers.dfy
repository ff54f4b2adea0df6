/** Optional values, used for the configuration fields the plugin author may omit
    and for the results of the JSON decoders. */
module Wrappers {

  datatype Option<+T> = None | Some(value: T)
}
