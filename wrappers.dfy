/** Optional values, used for the lookup tables and for the cursor's
    previous character, which has no value before the first read. */
module Wrappers {

  datatype Option<+T> = None | Some(value: T)

}
