/** Option, standing for the values the bot represents with Python's `None`. */
module Wrappers {
  datatype Option<+T> = None | Some(value: T)
}
