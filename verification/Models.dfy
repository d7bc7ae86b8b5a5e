/** The values that travel between clients, the relay and the database worker
    (`shared/src/models.rs`). A field whose text the server has to parse is kept in its
    parsed form: `None` stands for text that does not parse. */
module Models {
  type User = string
  type MessageId = string
  /** A session UUID; the order of the numbers is the order of the UUIDs. */
  type DeviceId = nat

  datatype Option<+T> = None | Some(value: T)

  datatype Result<+T> = Ok(value: T) | Err

  function Min(a: nat, b: nat): nat { if a < b then a else b }

  function ToSet<T>(s: seq<T>): set<T> { set x | x in s }

  predicate NoRepeats<T(==)>(s: seq<T>) {
    forall i, j | 0 <= i < j < |s| :: s[i] != s[j]
  }

  /** One ciphertext of an encrypted message; `device` is `None` when its text is no UUID. */
  datatype DeviceCiphertext = DeviceCiphertext(device: Option<DeviceId>, signalType: int, ciphertext: string)

  datatype IncomingMessage =
    | InEncrypted(to: User, id: MessageId, ciphertexts: seq<DeviceCiphertext>)
    | InText(to: User, id: MessageId, content: string)
    | InFile(to: User, id: MessageId, fileName: string, mimeType: string, fileUrl: string)
    | InTyping(to: User)
    | InWatchPresence(userIds: seq<User>)
    | InReadReceipt(to: User, messageId: MessageId)

  datatype OutgoingMessage =
    | Encrypted(from: User, id: MessageId, ciphertexts: seq<DeviceCiphertext>)
    | Text(from: User, id: MessageId, content: string)
    | File(from: User, id: MessageId, fileName: string, mimeType: string, fileUrl: string)
    | Typing(from: User)
    | DeliveryReceipt(to: User, messageId: MessageId)
    | ReadReceipt(from: User, messageId: MessageId)
    | PresenceUpdate(userId: User, isOnline: bool)

  datatype DatabaseEvent =
    | NewEncryptedMessage(id: MessageId, sender: User, recipient: User, ciphertexts: seq<DeviceCiphertext>)
    | NewMessage(id: MessageId, sender: User, recipient: User, messageType: string, content: Option<string>,
                 fileName: Option<string>, mimeType: Option<string>, fileUrl: Option<string>)
    | ReadEvent(messageId: MessageId, reader: User)
}
