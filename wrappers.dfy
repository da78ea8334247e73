/** Kotlin's nullable values (`String?`, `Int?`, a `Text?` receiver) as an explicit option. */
module Wrappers {

  datatype Option<+T> = None | Some(value: T)
}
