/**
 * The values of the Telegram bot SDK that the bot reads and builds: updates,
 * messages with their document attachment, and the file uploads it sends.
 * Only the fields the bot touches are modelled.
 */
module BotApi {
  import opened Wrappers

  newtype byte = b: int | 0 <= b < 256

  type Bytes = seq<byte>

  /** A file attachment: declared MIME type, Telegram file id and original file name. */
  datatype Document = Document(mimeType: string, fileId: string, fileName: string)

  /**
   * A chat message: its text, its optional document, the message it replies
   * to (if any, with the same shape) and the id of the chat it came from.
   */
  datatype Message = Message(text: string, document: Option<Document>, replyTo: Option<Message>, chatId: int)

  /** One event of the long-poll feed; many kinds of update carry no message. */
  datatype Update = Update(message: Option<Message>)

  /** `NewDocument` keeps the file as sent; `NewPhoto` lets the platform recompress it. */
  datatype UploadKind = DocumentUpload | PhotoUpload

  /** A send request: the kind of upload, target chat, and the named file bytes. */
  datatype Upload = Upload(kind: UploadKind, chatId: int, name: string, bytes: Bytes)
}
