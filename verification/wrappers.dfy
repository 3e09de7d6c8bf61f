/** The optional-value datatype used wherever the bot's JavaScript has a value
    that may be `null` or `undefined`. */
module Wrappers {

  datatype Option<+T> = None | Some(value: T)
}
