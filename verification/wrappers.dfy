/** The one failure-carrying datatype the model needs: a lookup or a foreign
    call that may come back empty-handed. */
module Wrappers {

  datatype Option<+T> = None | Some(value: T)
}
