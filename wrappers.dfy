/** The optional value the bot returns from lookups (java.util.Optional or a nullable reference). */
module Wrappers {
  datatype Option<T> = None | Some(value: T)
}
