/** The Python `Optional[...]` / `None` convention, as a datatype. */
module Optional {
  datatype Option<+T> = None | Some(value: T)
}
