/**
 * The conversation log's message type (async_openai's `ChatCompletionRequestMessage`),
 * the server-reported usage, and the storage record `ChatHistoryElement` that a log is
 * converted to before it is written out and from after it is read back.
 */
module Messages {
  import opened Wrappers

  /** Author of a message. */
  datatype Role = System | User | Assistant

  /** `Role::to_string`: the lower-case label the tokenizer counts. */
  function RoleName(r: Role): string {
    match r
    case System => "system"
    case User => "user"
    case Assistant => "assistant"
  }

  /** Distinct roles have distinct labels, so a label names its role. */
  lemma RoleNameInjective(a: Role, b: Role)
    ensures RoleName(a) == RoleName(b) ==> a == b
  {
  }

  /** One entry of the conversation log; `name` labels a participant. */
  datatype Message = Message(role: Role, content: string, name: Option<string>)

  /**
   * What `ChatCompletionRequestMessageArgs::default().content(c).role(r).build()` yields:
   * the builder leaves `name` unset.
   */
  function Plain(role: Role, content: string): Message {
    Message(role, content, None)
  }

  /** Token usage as the remote service reports it. */
  datatype Usage = Usage(promptTokens: nat, completionTokens: nat, totalTokens: nat)

  /** Failures a remote call or a storage read can report. */
  datatype ChatError =
    | ApiFailure(reason: string)   // the remote call or one streamed item failed
    | NoFirstChoice                // a streamed item carried no choice
    | StorageFailure(reason: string) // the file could not be opened or decoded

  /** `ChatHistoryElement`: the record a message is stored as. */
  datatype HistoryElement = HistoryElement(role: Role, content: string, name: Option<string>)

  /** `ChatHistoryStorage`: a stored log holds its messages and nothing else. */
  datatype HistoryStorage = HistoryStorage(messages: seq<HistoryElement>)

  /** `From<&ChatCompletionRequestMessage> for ChatHistoryElement`. */
  function ToElement(m: Message): (e: HistoryElement)
    ensures e.role == m.role && e.content == m.content && e.name == m.name
  {
    HistoryElement(m.role, m.content, m.name)
  }

  /** `From<ChatHistoryElement> for ChatCompletionRequestMessage`. */
  function FromElement(e: HistoryElement): (m: Message)
    ensures m.role == e.role && m.content == e.content && m.name == e.name
  {
    Message(e.role, e.content, e.name)
  }

  /** Storing a message and reading it back gives the message. */
  lemma MessageRoundTrip(m: Message)
    ensures FromElement(ToElement(m)) == m
  {
  }

  /** Reading a stored record and storing it again gives the record. */
  lemma ElementRoundTrip(e: HistoryElement)
    ensures ToElement(FromElement(e)) == e
  {
  }

  /** `history.iter().map(|e| e.into()).collect()` wrapped in a `ChatHistoryStorage`. */
  function ToStorage(h: seq<Message>): (doc: HistoryStorage)
    ensures |doc.messages| == |h|
    ensures forall i :: 0 <= i < |h| ==> FromElement(doc.messages[i]) == h[i]
  {
    HistoryStorage(seq(|h|, i requires 0 <= i < |h| => ToElement(h[i])))
  }

  /** `messages.into_iter().map(|m| m.into()).collect()`. */
  function FromStorage(doc: HistoryStorage): (h: seq<Message>)
    ensures |h| == |doc.messages|
    ensures forall i :: 0 <= i < |h| ==> ToElement(h[i]) == doc.messages[i]
  {
    seq(|doc.messages|, i requires 0 <= i < |doc.messages| => FromElement(doc.messages[i]))
  }

  /** A log survives storing and reloading unchanged, message by message and in order. */
  lemma StorageRoundTrip(h: seq<Message>)
    ensures FromStorage(ToStorage(h)) == h
  {
  }

  /** A stored document survives loading and storing again unchanged. */
  lemma DocumentRoundTrip(doc: HistoryStorage)
    ensures ToStorage(FromStorage(doc)) == doc
  {
  }
}
