/** The values that travel through the chat room: the `message` record, the
    identity of a client, and a client's `send` channel seen as a bounded
    mailbox. */
module Messages {

  /** A point in time (Go's time.Time); the model never looks inside. */
  datatype Timestamp = Timestamp(nanos: int)

  /** The identity of a connected client. The room keys its map on `*client`
      pointers; a fresh client is a fresh identifier. */
  type ClientId = nat

  /** `message`: `body` is the Message field (the text typed by the user),
      then Name, AvatarURL and When. */
  datatype Message = Message(body: string, name: string, avatarURL: string, when: Timestamp)

  /** messageBufferSize: the capacity of every client's `send` channel. */
  const MessageBufferSize: nat := 256

  /** A client's `send` channel: the messages buffered in it, oldest first, and
      whether it has been closed. */
  datatype Mailbox = Mailbox(queue: seq<Message>, closed: bool)

  /** The channel that `make(chan *message, messageBufferSize)` creates. */
  const EmptyMailbox: Mailbox := Mailbox([], false)
}
