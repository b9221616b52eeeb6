/** The two result shapes the bot's JavaScript uses: a value or `null`, and a
    value or a thrown `Error` carrying a message. */
module Wrappers {

  /** A value that may be absent (`null` / `undefined` in the source). */
  datatype Option<+T> = None | Some(value: T)

  /** A value, or a failure carrying the message of the `Error` that was thrown. */
  datatype Result<+T> = Ok(value: T) | Err(message: string)
}
