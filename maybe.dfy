/** The conventional optional value, used where a read can find nothing left. */
module Maybe {
  datatype Option<+T> = None | Some(value: T)
}
