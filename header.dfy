/** The top bar (components/Header.tsx): the menu button, the clear-chat button and the
    theme switch. The answer of the `confirm` dialog is the parameter `confirmed`. */
module Header {
  import opened Types
  import opened AppContext

  /** The theme the switch turns to: the other one. */
  function NextTheme(t: Theme): (r: Theme)
    ensures r != t
    ensures r == Dark <==> t == Light
  {
    if t == Light then Dark else Light
  }

  /** Switching twice returns to the starting theme. */
  lemma NextThemeInvolution(t: Theme)
    ensures NextTheme(NextTheme(t)) == t
  {
  }

  /** `handleClearChat`. The dialog is shown only when there are messages (`asked`); the
      conversation is emptied only when it was shown and accepted, and is otherwise left as
      it was. */
  method HandleClearChat(app: AppStore, confirmed: bool) returns (asked: bool)
    modifies app`messages
    ensures asked <==> |old(app.messages)| > 0
    ensures asked && confirmed ==> app.State() == Apply(old(app.State()), MessagesCleared)
    ensures !(asked && confirmed) ==> app.messages == old(app.messages)
  {
    asked := |app.messages| > 0;
    if asked && confirmed {
      app.ClearMessages();
    }
  }

  /** The theme switch: store, apply and persist the other theme. */
  method HandleThemeToggle(app: AppStore)
    modifies app`theme, app`storedTheme, app`darkClass
    ensures app.theme != old(app.theme)
    ensures app.State() == Apply(old(app.State()), ThemeSet(NextTheme(old(app.theme))))
    ensures app.storedTheme == Some(app.theme)
    ensures app.darkClass <==> app.theme == Dark
  {
    app.SetTheme(NextTheme(app.theme));
  }

  /** The menu button flips the drawer. */
  method HandleMenuClick(app: AppStore)
    modifies app`isSidebarOpen
    ensures app.isSidebarOpen == !old(app.isSidebarOpen)
    ensures app.State() == Apply(old(app.State()), SidebarToggled)
  {
    app.ToggleSidebar();
  }
}
