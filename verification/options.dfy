/** Rust's `Option<T>`: the result of `peek`, `pop_front` and every iterator's
    `next`, and the shape of a `Link` (an optional boxed node). */
module Options {

  datatype Option<+T> = None | Some(value: T)
}
