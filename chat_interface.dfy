/** The chat panel (components/ChatInterface.tsx): its input text, its loading flag, and the
    send orchestration that appends to the shared conversation.

    `handleSend` is split at its `await`: `BeginSend` is the synchronous part up to the
    request, `FinishSend` is the `try`/`catch`/`finally` that runs when the request settles.
    What the request returns is the parameter `outcome`. */
module ChatInterface {
  import opened Types
  import opened AppContext
  import Text
  import ChatRoute

  /** The fallback the `catch` appends. */
  const ErrorReply := "Sorry, I encountered an error processing your request. Please try again."

  /** The JSON body of the request to `/api/chat`. */
  datatype ChatRequest = ChatRequest(message: string, model: string, parameters: ChatParameters)

  /** How a request settles: a body with `success: true` and its `data.content`, a body with
      `success: false`, or a throw (network failure or a body that is not JSON). */
  datatype SendOutcome = Replied(content: string) | Declined | Threw

  /** The guard of `handleSend`: something besides whitespace typed, a model selected, no
      send in progress. */
  function CanSend(input: string, selected: Option<AIModel>, loading: bool): (b: bool)
    ensures b <==> !Text.AllWhitespace(input) && selected.Some? && !loading
  {
    Text.Trim(input) != [] && selected.Some? && !loading
  }

  /** Whether a key press sends: Enter without Shift. */
  function IsSendKey(key: string, shift: bool): (b: bool)
    ensures b ==> key == "Enter"
    ensures key == "Enter" ==> (b <==> !shift)
  {
    key == "Enter" && !shift
  }

  /** The assistant message the settled request adds, if any: the returned content on
      success, nothing on a `success: false` body, the fixed apology on a throw. */
  function ReplyFor(outcome: SendOutcome): (d: Option<MessageDraft>)
    ensures d.None? <==> outcome.Declined?
    ensures d.Some? ==> d.value.role == Assistant
    ensures outcome.Replied? ==> d == Some(MessageDraft(Assistant, outcome.content))
    ensures outcome.Threw? ==> d == Some(MessageDraft(Assistant, ErrorReply))
  {
    match outcome
    case Replied(content) => Some(MessageDraft(Assistant, content))
    case Declined => None
    case Threw => Some(MessageDraft(Assistant, ErrorReply))
  }

  /** The JSON body `request` is sent as. */
  function BodyOf(request: ChatRequest): ChatRoute.RequestBody {
    ChatRoute.Json(Some(request.message), ChatRoute.Str(request.model), Some(request.parameters))
  }

  /** What the client makes of the endpoint's answer when the round trip does not throw. */
  function OutcomeOf(response: ChatRoute.ChatResponse): SendOutcome {
    match response
    case Answered(content, _, _) => Replied(content)
    case Failed(_, _) => Declined
  }

  /** A request this panel sends always carries a message, a model and parameters, so the
      endpoint answers it with one of its canned replies, never with the error envelope,
      and the panel then appends that reply. */
  lemma SentRequestsAreAnswered(request: ChatRequest, pick: real, spend: real, show: real -> string)
    requires 0.0 <= pick < 1.0 && 0.0 <= spend < 1.0
    ensures ChatRoute.Post(BodyOf(request), pick, spend, show).Answered?
    ensures OutcomeOf(ChatRoute.Post(BodyOf(request), pick, spend, show)).Replied?
    ensures ReplyFor(OutcomeOf(ChatRoute.Post(BodyOf(request), pick, spend, show))).value.content in
              ChatRoute.MockResponses(request.message, request.model, request.parameters, show)
  {
  }

  class ChatView {
    const app: AppStore
    var input: string
    var isLoading: bool

    constructor (app: AppStore)
      ensures this.app == app && input == "" && !isLoading
    {
      this.app := app;
      input, isLoading := "", false;
    }

    /** The typed text changes (`onChange`). */
    method Type(text: string)
      modifies this`input
      ensures input == text
    {
      input := text;
    }

    /** The `loadTemplate` listener: the input becomes the template's text. */
    method LoadTemplate(content: string)
      modifies this`input
      ensures input == content
    {
      input := content;
    }

    /** `handleSend` up to its `await`. When the guard fails nothing happens and no request
        is returned. Otherwise the input is cleared, the trimmed text is appended as a user
        message, loading starts, and the returned request carries the trimmed text, the
        selected model's id and the current parameters. */
    method BeginSend(userStamp: Stamp) returns (request: Option<ChatRequest>)
      modifies this`input, this`isLoading, app`messages
      ensures request.Some? <==> old(CanSend(input, app.selectedModel, isLoading))
      ensures request.None? ==>
                input == old(input) && isLoading == old(isLoading) && app.messages == old(app.messages)
      ensures request.Some? ==>
                request.value == ChatRequest(Text.Trim(old(input)), old(app.selectedModel).value.id, app.parameters) &&
                request.value.message != [] &&
                input == "" && isLoading &&
                app.State() == Apply(old(app.State()), MessageAdded(MessageDraft(User, request.value.message), userStamp))
    {
      if !CanSend(input, app.selectedModel, isLoading) {
        return None;
      }
      var userMessage := Text.Trim(input);
      input := "";
      app.AddMessage(MessageDraft(User, userMessage), userStamp);
      isLoading := true;
      request := Some(ChatRequest(userMessage, app.selectedModel.value.id, app.parameters));
    }

    /** `handleSend` after its `await`: append the reply `outcome` calls for, then stop
        loading whatever happened. */
    method FinishSend(outcome: SendOutcome, replyStamp: Stamp)
      modifies this`isLoading, app`messages
      ensures !isLoading
      ensures ReplyFor(outcome).Some? ==>
                app.State() == Apply(old(app.State()), MessageAdded(ReplyFor(outcome).value, replyStamp))
      ensures ReplyFor(outcome).None? ==> app.messages == old(app.messages)
    {
      match outcome {
        case Replied(content) =>
          app.AddMessage(MessageDraft(Assistant, content), replyStamp);
        case Declined =>
        case Threw =>
          app.AddMessage(MessageDraft(Assistant, ErrorReply), replyStamp);
      }
      isLoading := false;
    }

    /** The whole of `handleSend` when nothing else happens while the request is in flight.
        A refused send changes nothing. An accepted one ends with the input empty, loading
        over, and the conversation extended by the user turn followed by the reply, if any. */
    method HandleSend(outcome: SendOutcome, userStamp: Stamp, replyStamp: Stamp) returns (request: Option<ChatRequest>)
      modifies this`input, this`isLoading, app`messages
      ensures request.Some? <==> old(CanSend(input, app.selectedModel, isLoading))
      ensures request.None? ==>
                input == old(input) && isLoading == old(isLoading) && app.messages == old(app.messages)
      ensures request.Some? ==>
                request.value == ChatRequest(Text.Trim(old(input)), old(app.selectedModel).value.id, app.parameters) &&
                input == "" && !isLoading &&
                app.messages == old(app.messages) + [Stamped(MessageDraft(User, request.value.message), userStamp)] +
                  (if ReplyFor(outcome).Some? then [Stamped(ReplyFor(outcome).value, replyStamp)] else [])
    {
      request := BeginSend(userStamp);
      if request.Some? {
        FinishSend(outcome, replyStamp);
      }
    }

    /** `handleKeyDown`: Enter without Shift is the whole of `HandleSend`; any other key
        does nothing. */
    method HandleKeyDown(key: string, shift: bool, outcome: SendOutcome, userStamp: Stamp, replyStamp: Stamp)
      returns (request: Option<ChatRequest>)
      modifies this`input, this`isLoading, app`messages
      ensures !IsSendKey(key, shift) ==>
                request.None? && input == old(input) && isLoading == old(isLoading) && app.messages == old(app.messages)
      ensures IsSendKey(key, shift) ==> (request.Some? <==> old(CanSend(input, app.selectedModel, isLoading)))
      ensures request.None? ==>
                input == old(input) && isLoading == old(isLoading) && app.messages == old(app.messages)
      ensures request.Some? ==>
                request.value == ChatRequest(Text.Trim(old(input)), old(app.selectedModel).value.id, app.parameters) &&
                input == "" && !isLoading &&
                app.messages == old(app.messages) + [Stamped(MessageDraft(User, request.value.message), userStamp)] +
                  (if ReplyFor(outcome).Some? then [Stamped(ReplyFor(outcome).value, replyStamp)] else [])
    {
      if IsSendKey(key, shift) {
        request := HandleSend(outcome, userStamp, replyStamp);
      } else {
        request := None;
      }
    }
  }
}
