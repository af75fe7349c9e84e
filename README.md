# AI Playground state model

A Dafny model of the chat playground's client state and its mock API.

**The state container.** `AppContext.AppStore` is the provider's five state cells plus two effects outside the state value: the persisted `theme` entry in local storage and the `dark` class on the document root. It changes only through its six operations and the mount effect that initialises the theme:
- `setTheme`
- `setSelectedModel`
- `setParameters`
- `addMessage`
- `clearMessages`
- `toggleSidebar`

The mount effect is `AppStore.InitTheme`.

Each operation is a method framed to the fields it may change. Each is specified by the pure transition `AppContext.Apply`. Properties of whole sequences of operations are lemmas about `AppContext.ApplyAll`: messages only grow between clears, toggles work by parity, and a selection once made stays made.

**The view handlers.** The handlers of the chat panel, the settings sidebar, the header and the page layout drive the container's transitions. Each is a method of a view class, or a module-level method over the store. Where a handler calls one of the store's operations, its contract states the new store state through the same `Apply`. That covers the send flow, choosing a model, the auto-selection branch of the catalog load, the parameter controls, and the header and layout handlers. Handlers that only touch the view's own fields (the input text, the dropdown flag, the loaded lists, the body style) state those fields directly.
- The send flow is split at its `await`. `BeginSend` checks the guard, appends the user turn and starts loading. `FinishSend` receives how the request settled and appends the reply, the fallback or nothing.
- `HandleSend` composes the two halves.

**The three mock endpoints.** These are pure functions.
- The chat endpoint's two random draws are reals in [0, 1).
- Its rendering of numbers is a parameter.

**Inputs from the environment.** Message ids and timestamps come from the caller as a `Stamp`, which acts as a fresh-id supply and a clock. These are parameters too:
- the system colour-scheme preference;
- the browser window width;
- the answer to the confirmation dialog;
- the selection captured by the sidebar's loading effect.

## Model

| member | source | states |
|---|---|---|
| Text.TrimStart | components/ChatInterface.tsx:56 | The result is a suffix of the input. What it drops is all whitespace, and it starts with a non-whitespace character or is empty. |
| Text.TrimEnd | components/ChatInterface.tsx:56 | The result is a prefix of the input. What it drops is all whitespace, and it ends with a non-whitespace character or is empty. |
| Text.Trim | components/ChatInterface.tsx:56-58 | `trim()` yields the empty string exactly when the input is all whitespace. A non-empty result begins and ends with non-whitespace and is no longer than the input. |
| Text.TrimIsSlice | components/ChatInterface.tsx:58 | The trimmed text is a contiguous slice of the input, with only whitespace cut from either side. |
| Text.TrimIdempotent | components/ChatInterface.tsx:56-58 | Trimming the trimmed text changes nothing. |
| Text.Prefix | app/api/chat/route.ts:13-17 | `substring(0, n)` is a prefix of the message of at most n characters. It is the whole message when that is short enough, and exactly n long otherwise. |
| AppContext.InitialState | contexts/AppContext.tsx:8-23 | Initial state: light theme, no model, parameters 0.7 / 2048 / 1, no messages, sidebar closed. |
| AppContext.ResolveTheme | contexts/AppContext.tsx:26-38 | A stored theme wins. Without one, the theme is dark exactly when the system prefers dark. |
| AppContext.Merge | contexts/AppContext.tsx:46-48 | The object spread: every field given in the partial takes its value, and every omitted field keeps its value. |
| AppContext.MergeEmpty | contexts/AppContext.tsx:46-48 | `setParameters({})` leaves the parameters as they were. |
| AppContext.MergeIdempotent | contexts/AppContext.tsx:46-48 | Merging the same partial twice equals merging it once. |
| AppContext.Apply | contexts/AppContext.tsx:40-65 | Each operation changes only its own field. The selection becomes the given model and is never reset. `addMessage` adds exactly one message, keeps the old ones as a prefix and carries the draft's role and content. A clear empties the list. A toggle negates the flag. |
| AppContext.ApplyAllConcat | contexts/AppContext.tsx:40-65 | Running two sequences of operations back to back equals running their concatenation. |
| AppContext.MessagesAppendOnly | contexts/AppContext.tsx:50-57 | Without a clear, the list is the old list followed by the added messages, in call order. |
| AppContext.MessagesSinceClear | contexts/AppContext.tsx:50-61 | After a clear, the list holds exactly what was added since, whatever came before. |
| AppContext.SidebarParity | contexts/AppContext.tsx:63-65 | Any sequence of operations leaves the sidebar flag determined by its start value and the parity of the toggles. |
| AppContext.ToggleTwice | contexts/AppContext.tsx:63-65 | Two toggles restore the state. |
| AppContext.SelectionNeverCleared | types/index.ts:32-40 | Once a model is selected, no sequence of operations makes the selection null. |
| AppContext.ClearIdempotent | contexts/AppContext.tsx:59-61 | Clearing twice is clearing once. |
| AppContext.AppStore.constructor | contexts/AppContext.tsx:18-23 | A mounted provider holds the initial state. Storage and the root class are as found. |
| AppContext.AppStore.InitTheme | contexts/AppContext.tsx:26-38 | The mount effect sets the theme to `ResolveTheme`, and the dark class agrees with it in both branches. |
| AppContext.AppStore.SetTheme | contexts/AppContext.tsx:40-44 | The theme becomes t, storage holds t, and the dark class is on exactly when t is dark. No other field changes. |
| AppContext.AppStore.SetSelectedModel | contexts/AppContext.tsx:20 | The selection becomes the model. Nothing else changes. |
| AppContext.AppStore.SetParameters | contexts/AppContext.tsx:46-48 | The parameters become the merge. Nothing else changes. |
| AppContext.AppStore.AddMessage | contexts/AppContext.tsx:50-57 | The stamped message is appended. Nothing else changes. |
| AppContext.AppStore.ClearMessages | contexts/AppContext.tsx:59-61 | The messages become empty. Nothing else changes. |
| AppContext.AppStore.ToggleSidebar | contexts/AppContext.tsx:63-65 | The sidebar flag flips. Nothing else changes. |
| ChatRoute.Draw | app/api/chat/route.ts:20 | `Math.floor(u * n)` for a draw in [0, 1) is a valid index below n. |
| ChatRoute.MockResponses | app/api/chat/route.ts:12-18 | There are exactly five canned replies. |
| ChatRoute.ModelText | app/api/chat/route.ts:13-16 | `${model}` is the string itself, `undefined` for an absent model and `null` for a null one. It fails exactly for another value whose conversion to text throws. |
| ChatRoute.Reply | app/api/chat/route.ts:13-17 | Each reply starts with its fixed opening and quotes, right after it, a prefix of the message: its first 50, 30, 40 or 35 characters for replies 0, 1, 2 and 4, and none for reply 3. |
| ChatRoute.ReplyDependsOnlyOnExcerpt | app/api/chat/route.ts:13-17 | Each reply depends on the message only through its excerpt: two messages with the same excerpt get the same reply, and reply 3 is the same for every message. |
| ChatRoute.Post | app/api/chat/route.ts:3-36 | The handler answers exactly when the body parses, has a string message and parameters, and its model can be rendered as text. An answer echoes the model, is one of the five replies and reports 100 to 599 tokens. Anything else yields the fixed error with status 500. |
| ChatRoute.FailureIgnoresDraws | app/api/chat/route.ts:12-18 | All replies are built before the draw, so whether the handler fails, and the failure it returns, do not depend on the draws. |
| ChatRoute.EveryReplyReachable | app/api/chat/route.ts:20 | For any model that can be rendered as text, each of the five replies is returned for some draw. |
| ModelsRoute.MockModels | app/api/models/route.ts:4-47 | The catalog has six entries. The first is `gpt-4-turbo` by OpenAI, and every entry allows 4096 tokens. |
| ModelsRoute.ModelIdsDistinct | app/api/models/route.ts:4-47 | No two catalog entries share an id. |
| ModelsRoute.Get | app/api/models/route.ts:49-56 | The response is always a success carrying the whole catalog. |
| TemplatesRoute.MockTemplates | app/api/templates/route.ts:4-47 | The `mockTemplates` constant has six entries, and entry k has the id k + 1 written as a digit. |
| TemplatesRoute.TemplateIdsDistinct | app/api/templates/route.ts:4-47 | There are six templates with ids `1` to `6` in order, and they are pairwise distinct. |
| TemplatesRoute.Get | app/api/templates/route.ts:49-56 | The response is always a success carrying all six templates. |
| ChatInterface.CanSend | components/ChatInterface.tsx:56 | A send may proceed exactly when the input holds some non-whitespace character, a model is selected and no send is loading. |
| ChatInterface.IsSendKey | components/ChatInterface.tsx:100 | Only Enter sends, and Enter sends exactly when Shift is not held. |
| ChatInterface.ReplyFor | components/ChatInterface.tsx:82-93 | A success adds an assistant message with the returned content. A `success: false` body adds nothing. A throw adds the fixed apology. |
| ChatInterface.SentRequestsAreAnswered | components/ChatInterface.tsx:70-77 | A request the panel sends always has a message, a model and parameters, so the endpoint answers it with a canned reply. The panel then appends that reply. |
| ChatInterface.ChatView.constructor | components/ChatInterface.tsx:11-12 | The input starts empty and no send is loading. |
| ChatInterface.ChatView.Type | components/ChatInterface.tsx:176 | Typing sets the input. |
| ChatInterface.ChatView.LoadTemplate | components/ChatInterface.tsx:35-44 | The template listener sets the input to the template's text. |
| ChatInterface.ChatView.BeginSend | components/ChatInterface.tsx:55-77 | A request is made exactly when the guard holds. If not, nothing changes. If so, the input is cleared, a user message with the trimmed text is appended, loading starts, and the request carries the trimmed text, the model id and the parameters. |
| ChatInterface.ChatView.FinishSend | components/ChatInterface.tsx:79-96 | Loading ends on every path. The reply `ReplyFor` calls for is appended, or nothing on a `success: false` body. |
| ChatInterface.ChatView.HandleSend | components/ChatInterface.tsx:55-97 | A refused send changes nothing. An accepted send ends with the input empty, loading over, and the messages extended by the user turn and then the reply, if any. |
| ChatInterface.ChatView.HandleKeyDown | components/ChatInterface.tsx:99-104 | Any key but Enter without Shift changes nothing. Enter without Shift has the whole effect of `HandleSend`: when the guard holds, the input ends empty, loading is over, and the messages are extended by the user turn and then the reply, if any. |
| Sidebar.SelectionAfterLoad | components/Sidebar.tsx:18-22 | After the catalog loads, the first entry is selected if the list is non-empty and the captured selection was empty. Otherwise the selection is unchanged, and an empty list never sets one. |
| Sidebar.FirstLoadSelectsFirstModel | components/Sidebar.tsx:18-22 | On a fresh page, the endpoint's catalog leads to `gpt-4-turbo` being selected. |
| Sidebar.StaleLoadOverridesPick | components/Sidebar.tsx:14-22 | A response for an effect run that captured no selection replaces a model the user picked meanwhile. |
| Sidebar.IsOptionSelected | components/Sidebar.tsx:88-91 | An option is highlighted exactly when there is a selection with the option's id: a selection with that id highlights it, nothing is highlighted without a selection, and a highlighted option has the selected model's id. |
| Sidebar.AtMostOneOptionSelected | components/Sidebar.tsx:88-91 | With distinct ids, at most one dropdown option is highlighted. |
| Sidebar.CatalogHighlightsAtMostOne | components/Sidebar.tsx:88-91 | In the endpoint's catalog, at most one option is highlighted. |
| Sidebar.SidebarView.constructor | components/Sidebar.tsx:10-12 | The lists start empty and the dropdown starts closed. |
| Sidebar.SidebarView.OnModelsLoaded | components/Sidebar.tsx:18-22 | The list is replaced wholesale, and the selection becomes `SelectionAfterLoad`. |
| Sidebar.SidebarView.OnTemplatesLoaded | components/Sidebar.tsx:28 | The template list is replaced wholesale. |
| Sidebar.SidebarView.ToggleDropdown | components/Sidebar.tsx:51 | The dropdown flag flips. |
| Sidebar.SidebarView.ChooseModel | components/Sidebar.tsx:83-86 | The clicked model becomes the selection and is highlighted, and the dropdown closes. |
| Sidebar.SidebarView.SetTemperature | components/Sidebar.tsx:124-145 | Only the temperature changes. The other two parameters are kept. |
| Sidebar.SidebarView.SetMaxTokens | components/Sidebar.tsx:160-175 | Only max tokens change, to a whole number. The other two parameters are kept. |
| Sidebar.SidebarView.SetTopP | components/Sidebar.tsx:193-208 | Only top-p changes. The other two parameters are kept. |
| Sidebar.SidebarView.HandleTemplateClick | components/Sidebar.tsx:31-35 | Clicking a template sets the chat input to its content. |
| Header.NextTheme | components/Header.tsx:59 | The switch always turns to the other theme. |
| Header.NextThemeInvolution | components/Header.tsx:59 | Two presses restore the theme. |
| Header.HandleClearChat | components/Header.tsx:11-15 | The dialog is shown exactly when there are messages. The list is emptied only when the dialog was shown and accepted, and is otherwise unchanged. |
| Header.HandleThemeToggle | components/Header.tsx:59 | The theme flips and is persisted, and the dark class follows it. |
| Header.HandleMenuClick | components/Header.tsx:23 | The sidebar flag flips. |
| MainLayout.SidebarAfterResize | components/MainLayout.tsx:15-19 | After a resize the drawer is open only if it was open and the width is below 1024. A resize never opens it. |
| MainLayout.ResizeIdempotent | components/MainLayout.tsx:15-19 | A repeated resize to the same width changes nothing more. |
| MainLayout.BodyOverflow | components/MainLayout.tsx:26-31 | Body overflow is `hidden` exactly when the drawer is open, and `unset` otherwise. |
| MainLayout.LayoutView.constructor | components/MainLayout.tsx:10-11 | The layout reads the shared store, and the body style is as found. |
| MainLayout.LayoutView.HandleResize | components/MainLayout.tsx:15-19 | At desktop width an open drawer is toggled closed. Otherwise the state is unchanged. |
| MainLayout.LayoutView.SyncBodyOverflow | components/MainLayout.tsx:26-31 | The body style follows the drawer flag. |
| MainLayout.LayoutView.ReleaseBodyOverflow | components/MainLayout.tsx:33-35 | The effect's cleanup resets the style to `unset`. |
| MainLayout.LayoutView.HandleBackdropClick | components/MainLayout.tsx:50-58 | The backdrop exists only while the drawer is open, and clicking it closes the drawer. |

## Left out

**Components and presentation**
- components/MessageBubble.tsx as a whole: clipboard, file download and time formatting are browser I/O and presentation.
- Rendering, styling, animation, the icon-rotation interval and the textarea auto-resize: presentational.

**I/O, timing and the environment**
- `fetch`, JSON (de)serialisation and the artificial delays of the endpoints: the result of a request is an input (`SendOutcome`, the loaded lists, the parsed `RequestBody`).
- Message ids from `Date.now()` and `Math.random()`, and `new Date()` timestamps: these are the caller's `Stamp`. The source does not guarantee unique ids, and the model claims none.
- The browser APIs are modelled only by their effect:
  - the `loadTemplate` window event sets the chat input;
  - local storage is an optional stored theme;
  - the colour-scheme query is a boolean.

**Stored values and parameters**
- Stored strings other than `light` and `dark`: the source casts whatever it finds. An empty stored string falls back to the system preference, and any other string would be adopted as the theme. The model stores only the two themes.
- Parameter values are opaque reals: floating point, `NaN` and the parsing by `parseFloat` and `parseInt` are not modelled, and the container clamps nothing.
- A partial that sets a field explicitly to `undefined`, and a `parameters` object in a chat request with missing fields: the model takes a given field as a real, and request parameters as a complete record.

**Behaviour outside the sequential model**
- Overlapping sends and responses arriving out of order: concurrency. `HandleSend` assumes nothing else happens while the request is in flight, and `BeginSend`/`FinishSend` are the two halves for other interleavings.
- The re-fetch of both catalogs whenever the selection changes, and the throw of `useApp` outside the provider: component lifecycle glue. The stale capture of the selection is modelled only as the `captured` parameter.

**Text and number rendering**
- ChatRoute.Post: `${x}` of a number is the caller's rendering function `show`.
- ChatRoute.Post: JavaScript's `substring` counts UTF-16 code units, while `Text.Prefix` counts characters. The two agree on text without astral characters.
- ChatRoute.Post: a `message` that is not a string, and a body of `null`, are folded into the failure cases.
- ChatRoute.ModelText: a `model` that is neither a string, nor `null`, nor absent (a number, a boolean, an array or an object) is carried together with the text its conversion yields, or with none when that conversion throws (an object whose `toString` is not a function, for instance). JavaScript's conversion itself is not modelled.
