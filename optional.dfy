/** A value that may be absent: TypeScript's `T | null` / `T | undefined` and Rust's `Option<T>`. */
module Optional {
  datatype Option<+T> = None | Some(value: T)
}
