/** A value that may be missing: a null reference, an absent camera, no dangerous body yet. */
module Optional {
  datatype Option<T> = None | Some(value: T)
}
