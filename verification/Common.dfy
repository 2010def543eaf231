/** Small shared vocabulary. */
module Common {
  datatype Option<+T> = None | Some(value: T)

  /** The two command types that set up or look up media. */
  predicate IsUL(kind: char) {
    kind == 'U' || kind == 'L'
  }
}
