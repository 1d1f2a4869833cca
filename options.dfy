/** An optional value: `None` stands for JavaScript's `null`/absent, `Some` for a present value. */
module Options {

  datatype Option<+T> = None | Some(value: T)
}
