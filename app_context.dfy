/** The shared application state container (contexts/AppContext.tsx).

    The container holds an `AppState` in five cells and changes it only through six
    operations. Each operation is a `method` of `AppStore`, framed to the one field it may
    change, and is specified by the pure transition `Apply` on `AppState`; properties of
    whole sequences of operations are lemmas about `ApplyAll`. */
module AppContext {
  import opened Types

  /** `defaultParameters`. */
  const DefaultParameters := ChatParameters(0.7, 2048.0, 1.0)

  /** The state a freshly mounted provider holds, before the theme is initialised. */
  function InitialState(): (s: AppState)
    ensures s.theme == Light && s.selectedModel == None
    ensures s.parameters.temperature == 0.7 && s.parameters.maxTokens == 2048.0 && s.parameters.topP == 1.0
    ensures s.messages == [] && !s.isSidebarOpen
  {
    AppState(Light, None, DefaultParameters, [], false)
  }

  /** The theme chosen at start-up: the stored one if there is one, else dark exactly when
      the system prefers dark. */
  function ResolveTheme(stored: Option<Theme>, prefersDark: bool): (t: Theme)
    ensures stored.Some? ==> t == stored.value
    ensures stored.None? ==> (t == Dark <==> prefersDark)
  {
    match stored
    case Some(saved) => saved
    case None => if prefersDark then Dark else Light
  }

  /** One field of an object spread: the new value if given, the old one otherwise. */
  function Overlay(prev: real, given: Option<real>): real {
    if given.Some? then given.value else prev
  }

  /** `{ ...prev, ...partial }`: each field given in `p` takes its value, each omitted field
      keeps the value it had. */
  function Merge(prev: ChatParameters, p: PartialParameters): (r: ChatParameters)
    ensures p.temperature.Some? ==> r.temperature == p.temperature.value
    ensures p.temperature.None? ==> r.temperature == prev.temperature
    ensures p.maxTokens.Some? ==> r.maxTokens == p.maxTokens.value
    ensures p.maxTokens.None? ==> r.maxTokens == prev.maxTokens
    ensures p.topP.Some? ==> r.topP == p.topP.value
    ensures p.topP.None? ==> r.topP == prev.topP
  {
    ChatParameters(
      Overlay(prev.temperature, p.temperature),
      Overlay(prev.maxTokens, p.maxTokens),
      Overlay(prev.topP, p.topP))
  }

  /** Merging the empty partial changes nothing. */
  lemma MergeEmpty(prev: ChatParameters)
    ensures Merge(prev, PartialParameters(None, None, None)) == prev
  {
  }

  /** Merging the same partial twice is merging it once. */
  lemma MergeIdempotent(prev: ChatParameters, p: PartialParameters)
    ensures Merge(Merge(prev, p), p) == Merge(prev, p)
  {
  }

  /** The container's operations, as values: one per mutator of `AppContextType`. */
  datatype Update =
    | ThemeSet(theme: Theme)
    | ModelSelected(model: AIModel)
    | ParametersMerged(partial: PartialParameters)
    | MessageAdded(draft: MessageDraft, stamp: Stamp)
    | MessagesCleared
    | SidebarToggled

  /** The effect of one operation on the state: it changes its own field and nothing else. */
  function Apply(s: AppState, u: Update): (r: AppState)
    // setTheme
    ensures r.theme == (if u.ThemeSet? then u.theme else s.theme)
    // setSelectedModel: only ever to a model, never back to null
    ensures r.selectedModel == (if u.ModelSelected? then Some(u.model) else s.selectedModel)
    // setParameters
    ensures r.parameters == (if u.ParametersMerged? then Merge(s.parameters, u.partial) else s.parameters)
    // addMessage: one more message, old ones an unchanged prefix, the new one carrying the draft
    ensures u.MessageAdded? ==>
              |r.messages| == |s.messages| + 1 && r.messages[..|s.messages|] == s.messages &&
              r.messages[|s.messages|].role == u.draft.role &&
              r.messages[|s.messages|].content == u.draft.content
    // clearMessages
    ensures u.MessagesCleared? ==> r.messages == []
    ensures !u.MessageAdded? && !u.MessagesCleared? ==> r.messages == s.messages
    // toggleSidebar
    ensures r.isSidebarOpen == (if u.SidebarToggled? then !s.isSidebarOpen else s.isSidebarOpen)
  {
    match u
    case ThemeSet(t) => s.(theme := t)
    case ModelSelected(m) => s.(selectedModel := Some(m))
    case ParametersMerged(p) => s.(parameters := Merge(s.parameters, p))
    case MessageAdded(d, st) => s.(messages := s.messages + [Stamped(d, st)])
    case MessagesCleared => s.(messages := [])
    case SidebarToggled => s.(isSidebarOpen := !s.isSidebarOpen)
  }

  /** The state after a sequence of operations, applied in order. */
  function ApplyAll(s: AppState, us: seq<Update>): AppState
    decreases |us|
  {
    if us == [] then s else ApplyAll(Apply(s, us[0]), us[1..])
  }

  /** The messages that the `addMessage` calls of `us` create, in call order. */
  function AddedMessages(us: seq<Update>): seq<Message>
    decreases |us|
  {
    if us == [] then []
    else (if us[0].MessageAdded? then [Stamped(us[0].draft, us[0].stamp)] else []) + AddedMessages(us[1..])
  }

  /** The number of `toggleSidebar` calls in `us`. */
  function Toggles(us: seq<Update>): nat
    decreases |us|
  {
    if us == [] then 0 else (if us[0].SidebarToggled? then 1 else 0) + Toggles(us[1..])
  }

  predicate NoClear(us: seq<Update>) {
    forall i :: 0 <= i < |us| ==> !us[i].MessagesCleared?
  }

  /** Applying `us + vs` is applying `us`, then `vs`. */
  lemma {:induction false} ApplyAllConcat(s: AppState, us: seq<Update>, vs: seq<Update>)
    ensures ApplyAll(s, us + vs) == ApplyAll(ApplyAll(s, us), vs)
    decreases |us|
  {
    if us == [] {
      assert us + vs == vs;
    } else {
      assert (us + vs)[0] == us[0] && (us + vs)[1..] == us[1..] + vs;
      ApplyAllConcat(Apply(s, us[0]), us[1..], vs);
    }
  }

  /** Without a `clearMessages`, the message list only grows at its end, and what is added
      is exactly the messages of the `addMessage` calls, in call order. */
  lemma {:induction false} MessagesAppendOnly(s: AppState, us: seq<Update>)
    requires NoClear(us)
    ensures ApplyAll(s, us).messages == s.messages + AddedMessages(us)
    decreases |us|
  {
    if us != [] {
      var head := if us[0].MessageAdded? then [Stamped(us[0].draft, us[0].stamp)] else [];
      var s1 := Apply(s, us[0]);
      assert !us[0].MessagesCleared?;
      assert s1.messages == s.messages + head;
      assert NoClear(us[1..]) by {
        forall i | 0 <= i < |us[1..]| ensures !us[1..][i].MessagesCleared? {
          assert us[1..][i] == us[i + 1];
        }
      }
      MessagesAppendOnly(s1, us[1..]);
      assert s.messages + head + AddedMessages(us[1..]) == s.messages + (head + AddedMessages(us[1..]));
    }
  }

  /** After a `clearMessages`, the list holds exactly what was added since, whatever came before. */
  lemma MessagesSinceClear(s: AppState, us: seq<Update>, vs: seq<Update>)
    requires NoClear(vs)
    ensures ApplyAll(s, us + [MessagesCleared] + vs).messages == AddedMessages(vs)
  {
    ApplyAllConcat(s, us + [MessagesCleared], vs);
    ApplyAllConcat(s, us, [MessagesCleared]);
    MessagesAppendOnly(ApplyAll(s, us + [MessagesCleared]), vs);
  }

  /** The sidebar is open afterwards iff it was open and the toggles were even, or it was
      closed and they were odd; in particular two toggles restore it. */
  lemma {:induction false} SidebarParity(s: AppState, us: seq<Update>)
    ensures ApplyAll(s, us).isSidebarOpen == (s.isSidebarOpen == (Toggles(us) % 2 == 0))
    decreases |us|
  {
    if us != [] {
      SidebarParity(Apply(s, us[0]), us[1..]);
    }
  }

  /** Once a model is selected, no sequence of operations makes the selection null again. */
  lemma {:induction false} SelectionNeverCleared(s: AppState, us: seq<Update>)
    requires s.selectedModel.Some?
    ensures ApplyAll(s, us).selectedModel.Some?
    decreases |us|
  {
    if us != [] {
      SelectionNeverCleared(Apply(s, us[0]), us[1..]);
    }
  }

  /** Two toggles restore the state. */
  lemma ToggleTwice(s: AppState)
    ensures Apply(Apply(s, SidebarToggled), SidebarToggled) == s
  {
  }

  /** Clearing twice is clearing once. */
  lemma ClearIdempotent(s: AppState)
    ensures Apply(Apply(s, MessagesCleared), MessagesCleared) == Apply(s, MessagesCleared)
  {
  }

  /** The provider: the five state cells, plus the two effects outside the state value —
      the persisted `theme` entry of local storage and the `dark` class on the document root. */
  class AppStore {
    var theme: Theme
    var selectedModel: Option<AIModel>
    var parameters: ChatParameters
    var messages: seq<Message>
    var isSidebarOpen: bool
    var storedTheme: Option<Theme>
    var darkClass: bool

    /** The state value the provider exposes. */
    function State(): AppState
      reads this
    {
      AppState(theme, selectedModel, parameters, messages, isSidebarOpen)
    }

    /** Mounting the provider: default state; storage and the root class are as found. */
    constructor (stored: Option<Theme>, rootDark: bool)
      ensures State() == InitialState()
      ensures storedTheme == stored && darkClass == rootDark
    {
      theme, selectedModel, parameters, messages, isSidebarOpen := Light, None, DefaultParameters, [], false;
      storedTheme, darkClass := stored, rootDark;
    }

    /** The mount effect: adopt the stored theme, else the system preference, and make the
        root class agree. Storage is read, not written. */
    method InitTheme(prefersDark: bool)
      modifies this`theme, this`darkClass
      ensures theme == ResolveTheme(storedTheme, prefersDark)
      ensures darkClass <==> theme == Dark
    {
      if storedTheme.Some? {
        theme := storedTheme.value;
        darkClass := storedTheme.value == Dark;
      } else {
        theme := if prefersDark then Dark else Light;
        darkClass := prefersDark;
      }
    }

    method SetTheme(t: Theme)
      modifies this`theme, this`storedTheme, this`darkClass
      ensures State() == Apply(old(State()), ThemeSet(t))
      ensures storedTheme == Some(t)
      ensures darkClass <==> t == Dark
    {
      theme := t;
      storedTheme := Some(t);
      darkClass := t == Dark;
    }

    method SetSelectedModel(model: AIModel)
      modifies this`selectedModel
      ensures State() == Apply(old(State()), ModelSelected(model))
    {
      selectedModel := Some(model);
    }

    method SetParameters(p: PartialParameters)
      modifies this`parameters
      ensures State() == Apply(old(State()), ParametersMerged(p))
    {
      parameters := Merge(parameters, p);
    }

    /** The id and timestamp come from `stamp`, supplied by the caller's environment. */
    method AddMessage(draft: MessageDraft, stamp: Stamp)
      modifies this`messages
      ensures State() == Apply(old(State()), MessageAdded(draft, stamp))
    {
      messages := messages + [Stamped(draft, stamp)];
    }

    method ClearMessages()
      modifies this`messages
      ensures State() == Apply(old(State()), MessagesCleared)
    {
      messages := [];
    }

    method ToggleSidebar()
      modifies this`isSidebarOpen
      ensures State() == Apply(old(State()), SidebarToggled)
    {
      isSidebarOpen := !isSidebarOpen;
    }
  }
}
