/** The conventional Some/None datatype, used for optional catalog fields,
    for the "not found" outcome of a catalog scan and for a failed analysis. */
module Wrappers {

  datatype Option<+T> = None | Some(value: T)

}
