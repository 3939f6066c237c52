/** PHP's null, as an explicit optional value. */
module Wrappers {

  /** `None` stands for PHP null (or an unset entry), `Some(v)` for a value. */
  datatype Option<+T> = None | Some(value: T)
}
