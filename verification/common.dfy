/** Small shared vocabulary of the model. */
module Common {

  /** A value that may be absent; stands for a Java reference that may be null. */
  datatype Option<+T> = None | Some(value: T)

  /** `TextUtils.isEmpty`: true for a null or zero-length string. */
  predicate IsEmpty(s: Option<string>) {
    s.None? || |s.value| == 0
  }
}
