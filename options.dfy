/** A value that may be missing: a failed collaborator call, or SQL NULL. */
module Options {

  datatype Option<+T> = None | Some(value: T)
}
