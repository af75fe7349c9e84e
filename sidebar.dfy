/** The settings panel (components/Sidebar.tsx): the model picker, the three parameter
    controls and the template list.

    The two catalog requests of the mount effect are modelled by their results, handed to
    `OnModelsLoaded` and `OnTemplatesLoaded`. The effect's callback reads `selectedModel`
    as it was when the effect ran, not as it is when the response arrives; that captured
    value is the parameter `captured`. A numeric field's `parseFloat`/`parseInt` result is
    the argument of the setter. */
module Sidebar {
  import opened Types
  import opened AppContext
  import ChatInterface
  import ModelsRoute

  /** The selection after the model catalog arrives: the first entry when the list is
      non-empty and the captured selection was empty, else whatever is selected now. */
  function SelectionAfterLoad(data: seq<AIModel>, captured: Option<AIModel>, current: Option<AIModel>): (r: Option<AIModel>)
    ensures r.Some? <==> current.Some? || (|data| > 0 && captured.None?)
    ensures captured.Some? ==> r == current
    ensures |data| > 0 && captured.None? ==> r == Some(data[0])
    ensures data == [] ==> r == current
  {
    if |data| > 0 && captured.None? then Some(data[0]) else current
  }

  /** A fresh page, whose captured and current selections are both empty, ends up with the
      first catalog entry, `gpt-4-turbo`, selected. */
  lemma FirstLoadSelectsFirstModel()
    ensures SelectionAfterLoad(ModelsRoute.Get().data, None, None) == Some(ModelsRoute.MockModels()[0])
    ensures SelectionAfterLoad(ModelsRoute.Get().data, None, None).value.id == "gpt-4-turbo"
  {
  }

  /** A response that arrives after the user already picked a model, for an effect run that
      captured no selection, replaces the user's pick by the first entry. */
  lemma StaleLoadOverridesPick(data: seq<AIModel>, picked: AIModel)
    requires |data| > 0 && picked != data[0]
    ensures SelectionAfterLoad(data, None, Some(picked)) != Some(picked)
  {
  }

  /** Whether a dropdown option is highlighted: its id equals the selected model's. */
  function IsOptionSelected(model: AIModel, selected: Option<AIModel>): (b: bool)
    ensures selected.Some? && selected.value.id == model.id ==> b
    ensures selected == Some(model) ==> b
    ensures selected.None? ==> !b
    ensures b ==> selected.value.id == model.id
  {
    selected.Some? && selected.value.id == model.id
  }

  /** In a list without repeated ids, at most one option is highlighted. */
  lemma AtMostOneOptionSelected(ms: seq<AIModel>, selected: Option<AIModel>, i: int, j: int)
    requires forall a, b :: 0 <= a < b < |ms| ==> ms[a].id != ms[b].id
    requires 0 <= i < |ms| && 0 <= j < |ms|
    requires IsOptionSelected(ms[i], selected) && IsOptionSelected(ms[j], selected)
    ensures i == j
  {
  }

  /** The catalog the endpoint serves never highlights two options. */
  lemma CatalogHighlightsAtMostOne(selected: Option<AIModel>, i: int, j: int)
    requires 0 <= i < |ModelsRoute.MockModels()| && 0 <= j < |ModelsRoute.MockModels()|
    requires IsOptionSelected(ModelsRoute.MockModels()[i], selected)
    requires IsOptionSelected(ModelsRoute.MockModels()[j], selected)
    ensures i == j
  {
    ModelsRoute.ModelIdsDistinct();
    AtMostOneOptionSelected(ModelsRoute.MockModels(), selected, i, j);
  }

  class SidebarView {
    const app: AppStore
    var models: seq<AIModel>
    var templates: seq<PromptTemplate>
    var isModelDropdownOpen: bool

    constructor (app: AppStore)
      ensures this.app == app && models == [] && templates == [] && !isModelDropdownOpen
    {
      this.app := app;
      models, templates, isModelDropdownOpen := [], [], false;
    }

    /** The models response arrives: the list is shown, and the first entry is selected
        when the selection captured by the effect was empty. */
    method OnModelsLoaded(data: seq<AIModel>, captured: Option<AIModel>)
      modifies this`models, app`selectedModel
      ensures models == data
      ensures app.selectedModel == SelectionAfterLoad(data, captured, old(app.selectedModel))
      ensures |data| > 0 && captured.None? ==>
                app.State() == Apply(old(app.State()), ModelSelected(data[0]))
    {
      models := data;
      if |data| > 0 && captured.None? {
        app.SetSelectedModel(data[0]);
      }
    }

    /** The templates response arrives: the list is shown. */
    method OnTemplatesLoaded(data: seq<PromptTemplate>)
      modifies this`templates
      ensures templates == data
    {
      templates := data;
    }

    /** The picker button opens a closed dropdown and closes an open one. */
    method ToggleDropdown()
      modifies this`isModelDropdownOpen
      ensures isModelDropdownOpen == !old(isModelDropdownOpen)
    {
      isModelDropdownOpen := !isModelDropdownOpen;
    }

    /** Clicking an option selects its model and closes the dropdown. */
    method ChooseModel(model: AIModel)
      modifies this`isModelDropdownOpen, app`selectedModel
      ensures !isModelDropdownOpen
      ensures app.State() == Apply(old(app.State()), ModelSelected(model))
      ensures IsOptionSelected(model, app.selectedModel)
    {
      app.SetSelectedModel(model);
      isModelDropdownOpen := false;
    }

    /** The temperature field or slider changes: only the temperature is merged in. */
    method SetTemperature(value: real)
      modifies app`parameters
      ensures app.State() == Apply(old(app.State()), ParametersMerged(PartialParameters(Some(value), None, None)))
      ensures app.parameters == old(app.parameters).(temperature := value)
    {
      app.SetParameters(PartialParameters(Some(value), None, None));
    }

    /** The max-tokens field or slider changes; `parseInt` yields a whole number. */
    method SetMaxTokens(value: int)
      modifies app`parameters
      ensures app.State() == Apply(old(app.State()), ParametersMerged(PartialParameters(None, Some(value as real), None)))
      ensures app.parameters == old(app.parameters).(maxTokens := value as real)
    {
      app.SetParameters(PartialParameters(None, Some(value as real), None));
    }

    /** The top-p field or slider changes: only top-p is merged in. */
    method SetTopP(value: real)
      modifies app`parameters
      ensures app.State() == Apply(old(app.State()), ParametersMerged(PartialParameters(None, None, Some(value))))
      ensures app.parameters == old(app.parameters).(topP := value)
    {
      app.SetParameters(PartialParameters(None, None, Some(value)));
    }

    /** `handleTemplateClick`: the `loadTemplate` event carries the template's text to the
        chat panel, whose listener puts it in the input. */
    method HandleTemplateClick(template: PromptTemplate, chat: ChatInterface.ChatView)
      modifies chat`input
      ensures chat.input == template.content
    {
      chat.LoadTemplate(template.content);
    }
  }
}
