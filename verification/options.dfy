/** An optional value: `None` stands for the component's `null` (or `undefined`). */
module Options {

  datatype Option<+T> = None | Some(value: T)
}
