/** The records the application passes around: chat turns, few-shot examples and uploaded
    documents. Ids and timestamps come from `Date.now()` and are supplied by callers. */
module Types {
  import opened Wrappers

  datatype Role = User | Model | System

  /** One chat turn. `image` is a data URL, `thinking` marks a reasoning answer. */
  datatype Message = Message(
    role: Role,
    content: string,
    image: Option<string>,
    videoUri: Option<string>,
    timestamp: nat,
    thinking: Option<bool>)

  /** One demonstrated input/output pair. */
  datatype TrainingExample = TrainingExample(id: string, input: string, output: string)

  /** One uploaded file: its payload is the base64 text of the file's bytes. */
  datatype TrainingDocument = TrainingDocument(
    id: string,
    name: string,
    base64: string,
    mimeType: string,
    size: int)

  /** A plain turn with none of the optional fields, as the chat views create them. */
  function PlainMessage(role: Role, content: string, timestamp: nat): Message {
    Message(role, content, None, None, timestamp, None)
  }
}
