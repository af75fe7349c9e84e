/** The shared data shapes of the chat playground (types/index.ts). */
module Types {

  /** A value that may be absent: `T | null` or an optional property. */
  datatype Option<T> = None | Some(value: T)

  /** A catalog entry describing a selectable model. */
  datatype AIModel = AIModel(id: string, name: string, provider: string, description: string, maxTokens: int)

  /** A canned prompt that can be loaded into the chat input. */
  datatype PromptTemplate = PromptTemplate(id: string, name: string, content: string, category: string, createdAt: string)

  /** The author of a message: exactly `user` or `assistant`. */
  datatype Role = User | Assistant

  /** The colour scheme: exactly `light` or `dark`. */
  datatype Theme = Light | Dark

  /** A conversation entry; `timestamp` is the clock reading (milliseconds) at creation. */
  datatype Message = Message(id: string, role: Role, content: string, timestamp: int)

  /** What a caller hands to `addMessage`: a message without `id` and `timestamp`. */
  datatype MessageDraft = MessageDraft(role: Role, content: string)

  /** What the container adds to a draft: a fresh id and a clock reading, both supplied from outside. */
  datatype Stamp = Stamp(id: string, timestamp: int)

  /** Generation parameters; the values are opaque numbers that nothing clamps. */
  datatype ChatParameters = ChatParameters(temperature: real, maxTokens: real, topP: real)

  /** `Partial<ChatParameters>`: each of the three fields may be omitted. */
  datatype PartialParameters = PartialParameters(temperature: Option<real>, maxTokens: Option<real>, topP: Option<real>)

  /** The value held by the shared application state container. */
  datatype AppState = AppState(
    theme: Theme,
    selectedModel: Option<AIModel>,
    parameters: ChatParameters,
    messages: seq<Message>,
    isSidebarOpen: bool)

  /** The message the container builds from a draft and a stamp. */
  function Stamped(d: MessageDraft, st: Stamp): Message {
    Message(st.id, d.role, d.content, st.timestamp)
  }
}
