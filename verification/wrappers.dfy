/** The optional values the page keeps in its module-level variables
    (`lastRegions = null`, an empty file list, an undefined lookup). */
module Wrappers {

  datatype Option<+T> = None | Some(value: T)
}
