/**
 * The shapes the Gmail API returns, as the collector reads them, and the
 * errors its calls can raise.  A message's `payload` is the API's rendering
 * of a MIME body (section 5.1 of RFC 2046): a tree of parts, each with a
 * MIME type, a body, headers and possibly nested parts.
 */
module GmailApi {
  import opened Wrappers

  newtype byte = x: int | 0 <= x < 256

  type Bytes = seq<byte>

  /** A `{name, value}` header entry of a message or of a part. */
  datatype Header = Header(name: string, value: string)

  /**
   * A part's `body`: the URL-safe base64 `data` when it is inline, the
   * `attachmentId` when it must be fetched separately.
   */
  datatype Body = Body(data: Option<string>, attachmentId: Option<string>)

  /**
   * One node of the part tree.  The API reports `filename` as "" when a part
   * has none.  `parts` is [] both when the key is absent and when it holds an
   * empty list: the source tests it for truth only, so the two behave alike.
   */
  datatype Part = Part(
    filename: string,
    mimeType: string,
    body: Body,
    headers: Option<seq<Header>>,
    parts: seq<Part>)

  /** A full message's `payload`: its headers, its top-level parts and its own body. */
  datatype Payload = Payload(headers: Option<seq<Header>>, parts: seq<Part>, body: Body)

  /** The result of `messages().get(format='full')`. */
  datatype Message = Message(labelIds: Option<seq<string>>, payload: Payload)

  /** What a search returns per message: its id and its thread id. */
  datatype MessageRef = MessageRef(id: string, threadId: string)

  /** One response of `messages().list`: a page of references and, when more follow, the token for the next page. */
  datatype Page = Page(messages: Option<seq<MessageRef>>, nextPageToken: Option<string>)

  /** One `messages().list` request: the query and the page token passed with it. */
  datatype Request = Request(query: string, pageToken: Option<string>)

  /** A message as the account stores it: the full message and its attachments' data by attachment id. */
  datatype StoredMessage = StoredMessage(message: Message, attachments: map<string, string>)

  /** The authenticated API handle; each authentication yields a new generation. */
  datatype Session = Session(generation: nat)

  /**
   * The library decoders the source calls: `urlsafe_b64decode` (bytes, or None when it raises)
   * and `bytes.decode()` (UTF-8 text, or None when it raises).
   */
  datatype Codec = Codec(b64: string -> Option<Bytes>, utf8: Bytes -> Option<string>)

  /** The exceptions a collection attempt can raise. */
  datatype Error =
    | NotFound(what: string)        // an API call for an id the account does not hold
    | DecodeError                   // urlsafe_b64decode or UTF-8 decoding raised, or was given None
    | NotIterable                   // a `for` over a part's headers when the part has none
    | FolderExists(path: string)    // os.mkdir on a folder that already exists
    | UnboundFolderName             // `folder_name` read before any assignment
    | MissingKey(key: string)       // a dictionary subscript on an absent key
}
