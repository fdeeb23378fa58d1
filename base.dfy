/** Small shared vocabulary of the model. */
module Base {

  /** An optional value; `None` stands for JavaScript's `undefined` where a lookup can miss. */
  datatype Option<T> = None | Some(value: T)
}
