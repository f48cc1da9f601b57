/** An optional value, used for attributes that an event may lack and for
    the on-ramp components that a cell may not have. */
module Options {
  datatype Option<+T> = None | Some(value: T)
}
