/** An optional value: `undefined`/`null` results of lookups such as `Array.find`. */
module Options {
  datatype Option<+T> = None | Some(value: T)
}
