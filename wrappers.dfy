/** The optional values of the bot's inbound messages (a missing username, text or caption). */
module Wrappers {

  datatype Option<+T> = None | Some(value: T)
}
