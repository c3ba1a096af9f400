/** The channel capability as the dispatch engine sees it (snotify/channels/base.py).
    A concrete channel (Telegram, email, webhook, a test mock) is reduced to the
    data the engine observes: its class name, its default recipients, the result
    of its configuration check, and an identity that tells two objects apart. */
module Channels {
  import opened Wrappers

  /** A BaseRecipient: an identifier (chat id, e-mail address, key) and a display name. */
  datatype Recipient = Recipient(id: string, name: string)

  /** A BaseChannel object.
      - handle: the object's identity (two channels of one class are different objects)
      - typeName: the name of its class, e.g. "TelegramChannel"
      - recipients: the default recipient list given to its constructor
      - configError: what `validate_config()` does: None when it returns,
        Some(m) when it raises with message m */
  datatype Channel = Channel(
    handle: nat,
    typeName: string,
    recipients: seq<Recipient>,
    configError: Option<string>)

  /** The one call `channel.send(message=..., recipients=...)` that the engine makes. */
  datatype Invocation = Invocation(channel: Channel, message: string, recipients: seq<Recipient>)

  /** How one `channel.send` call ends: it returns, or it raises with a message. */
  datatype Delivery = Delivered | Failed(error: string)

  /** The transports are outside the model: the outcome of the k-th `channel.send`
      call of one campaign (counting from 0) is supplied by an oracle. */
  type Oracle = (nat, Invocation) -> Delivery

  /** Python's `recipients or channel.recipients`: an explicit list is used when it is
      truthy, so both an omitted argument and an empty list fall back to the
      channel's defaults. */
  function ResolveRecipients(given: Option<seq<Recipient>>, channel: Channel): seq<Recipient>
  {
    if given.Some? && given.value != [] then given.value else channel.recipients
  }
}
