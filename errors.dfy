/** The exceptions the bot's core can raise or let escape. */
module Errors {
  import opened Values

  datatype Error =
    /** `TelegramAPIError(description)`: the envelope's `ok` was falsy. */
    | ApiError(description: Value)
    /** `open(path, 'rb')` failed for a local upload path. */
    | FileNotFound(path: string)
    /** The HTTP client failed before an envelope could be read. */
    | TransportError
    /** `asyncio.CancelledError` while awaiting the long poll. */
    | Cancelled
    /** `.get` called on something that is not a dict. */
    | AttributeError
    /** `update_id + 1` on a non-number, or iteration over a non-iterable. */
    | TypeError
    /** `update[None]` for an update that has no type key. */
    | KeyError
    /** An exception raised by a user handler. */
    | HandlerError
}
