/** Kotlin's nullable types (`T?`) are modelled by Option: `None` is `null`. */
module Optional {

  datatype Option<+T> = None | Some(value: T)
}
