/** An optional value: the model's counterpart of a TypeScript field typed `T | undefined`
    (or `T | null`). */
module Options {

  datatype Option<+T> = None | Some(value: T)
}
