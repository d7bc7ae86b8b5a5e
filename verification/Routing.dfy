/** What the relay makes of one client frame (the inline match of `handle_socket` in
    relay/src/lib.rs): the message to route, its flags, and the event for the history. */
module Routing {
  import opened Models

  datatype Routed = Routed(needsReceipt: bool, storeOffline: bool, to: User, id: MessageId, outgoing: OutgoingMessage)

  /** `None` for a frame that only watches presence. */
  function Route(sender: User, frame: IncomingMessage): Option<Routed> {
    match frame
    case InEncrypted(to, id, ciphertexts) => Some(Routed(true, true, to, id, Encrypted(sender, id, ciphertexts)))
    case InText(to, id, content) => Some(Routed(true, true, to, id, Text(sender, id, content)))
    case InFile(to, id, fileName, mimeType, fileUrl) =>
      Some(Routed(true, true, to, id, File(sender, id, fileName, mimeType, fileUrl)))
    case InReadReceipt(to, messageId) => Some(Routed(false, true, to, "", ReadReceipt(sender, messageId)))
    case InTyping(to) => Some(Routed(false, false, to, "", Typing(sender)))
    case InWatchPresence(_) => None
  }

  function EventOf(sender: User, r: Routed): Option<DatabaseEvent> {
    match r.outgoing
    case Encrypted(from, id, ciphertexts) => Some(NewEncryptedMessage(id, from, r.to, ciphertexts))
    case Text(from, id, content) => Some(NewMessage(id, from, r.to, "text", Some(content), None, None, None))
    case File(from, id, fileName, mimeType, fileUrl) =>
      Some(NewMessage(id, from, r.to, "file", None, Some(fileName), Some(mimeType), Some(fileUrl)))
    case ReadReceipt(_, messageId) => Some(ReadEvent(messageId, sender))
    case _ => None
  }

  /** The receipt a drain sends for a queued message, decided on the message itself:
      its sender and its id. */
  function ReceiptInfo(m: OutgoingMessage): Option<(User, MessageId)> {
    match m
    case Text(from, id, _) => Some((from, id))
    case Encrypted(from, id, _) => Some((from, id))
    case File(from, id, _, _, _) => Some((from, id))
    case _ => None
  }

  /** The frame as its sender wrote it, read back from the message and the channel it goes to. */
  function FrameOf(to: User, m: OutgoingMessage): Option<IncomingMessage> {
    match m
    case Encrypted(_, id, ciphertexts) => Some(InEncrypted(to, id, ciphertexts))
    case Text(_, id, content) => Some(InText(to, id, content))
    case File(_, id, fileName, mimeType, fileUrl) => Some(InFile(to, id, fileName, mimeType, fileUrl))
    case ReadReceipt(_, messageId) => Some(InReadReceipt(to, messageId))
    case Typing(_) => Some(InTyping(to))
    case _ => None
  }

  /** Texts, files and encrypted messages: the frames that carry a message id. */
  predicate CarriesMessage(frame: IncomingMessage) {
    frame.InEncrypted? || frame.InText? || frame.InFile?
  }

  /** MAIN RESULT. Every frame but a watch goes to the user it names, as a message of its own kind with
      its own fields, from the user that sent it; all but typing may be queued, and messages ask for a
      receipt under their own id. */
  lemma RouteCarries(sender: User, frame: IncomingMessage)
    ensures Route(sender, frame).None? <==> frame.InWatchPresence?
    ensures !frame.InWatchPresence? ==>
              var r := Route(sender, frame).value;
              && r.to == frame.to
              && !r.outgoing.DeliveryReceipt? && !r.outgoing.PresenceUpdate? && r.outgoing.from == sender
              && FrameOf(frame.to, r.outgoing) == Some(frame)
              && (r.storeOffline <==> !frame.InTyping?)
              && (r.needsReceipt <==> CarriesMessage(frame))
              && (r.needsReceipt ==> r.id == frame.id)
    ensures frame.InEncrypted?
            ==> Route(sender, frame).value.outgoing == Encrypted(sender, frame.id, frame.ciphertexts)
    ensures frame.InText? ==> Route(sender, frame).value.outgoing == Text(sender, frame.id, frame.content)
    ensures frame.InFile?
            ==> Route(sender, frame).value.outgoing
                == File(sender, frame.id, frame.fileName, frame.mimeType, frame.fileUrl)
    ensures frame.InReadReceipt? ==> Route(sender, frame).value.outgoing == ReadReceipt(sender, frame.messageId)
    ensures frame.InTyping? ==> Route(sender, frame).value.outgoing == Typing(sender)
  {
  }

  /** The flags set when a frame is routed agree with what a later drain decides from the message. */
  lemma RouteAgreesWithDrain(sender: User, frame: IncomingMessage)
    requires Route(sender, frame).Some?
    ensures var r := Route(sender, frame).value;
            && (r.needsReceipt <==> ReceiptInfo(r.outgoing).Some?)
            && (r.needsReceipt ==> ReceiptInfo(r.outgoing) == Some((sender, r.id)) && r.storeOffline)
            && (r.storeOffline <==> EventOf(sender, r).Some?)
  {
  }
}
