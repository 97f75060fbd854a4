/** The nullable values of the component (a state slot holding `null` or a value). */
module Optional {

  datatype Option<+T> = None | Some(value: T)
}
