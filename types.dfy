/** The shared types of the portal. */
module Types {

  /** The two kinds of user the portal knows. */
  datatype UserRole = Student | Faculty

  /** A value that may be absent (`null`, `undefined`, `NaN`). */
  datatype Option<T> = None | Some(value: T)
}
