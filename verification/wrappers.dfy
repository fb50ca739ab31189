/** The optional-value datatype used for the store's chat_mode key and for
    a completion that carries no text. */
module Wrappers {

  datatype Option<+T> = None | Some(value: T)
}
