/** The optional result used where the physics layer answers "no value",
    such as the angle of a zero-length offset. */
module Wrappers {

  datatype Option<+T> = None | Some(value: T)

}
