/** The page frame (components/MainLayout.tsx): it closes the drawer when the window grows to
    desktop width, locks the page scroll while the drawer is open, and closes the drawer on a
    click of the backdrop. The window width and the style of the document body are
    parameters and a field. */
module MainLayout {
  import opened AppContext

  /** The width from which the layout counts as desktop. */
  const DesktopWidth := 1024

  /** The drawer's state after a resize to `width`: it stays open only below desktop width. */
  function SidebarAfterResize(width: int, open: bool): (r: bool)
    ensures r <==> open && width < DesktopWidth
  {
    if width >= DesktopWidth && open then !open else open
  }

  /** A second resize event at the same width changes nothing more. */
  lemma ResizeIdempotent(width: int, open: bool)
    ensures SidebarAfterResize(width, SidebarAfterResize(width, open)) == SidebarAfterResize(width, open)
  {
  }

  /** The body's `overflow` style for a drawer state. */
  function BodyOverflow(open: bool): (v: string)
    ensures v == "hidden" <==> open
    ensures v == "hidden" || v == "unset"
  {
    if open then "hidden" else "unset"
  }

  class LayoutView {
    const app: AppStore
    var bodyOverflow: string

    constructor (app: AppStore, overflow: string)
      ensures this.app == app && bodyOverflow == overflow
    {
      this.app := app;
      bodyOverflow := overflow;
    }

    /** The resize listener: at desktop width an open drawer is toggled closed; otherwise
        nothing happens. */
    method HandleResize(innerWidth: int)
      modifies app`isSidebarOpen
      ensures app.isSidebarOpen == SidebarAfterResize(innerWidth, old(app.isSidebarOpen))
      ensures innerWidth >= DesktopWidth && old(app.isSidebarOpen) ==>
                app.State() == Apply(old(app.State()), SidebarToggled)
      ensures !(innerWidth >= DesktopWidth && old(app.isSidebarOpen)) ==> app.State() == old(app.State())
    {
      if innerWidth >= DesktopWidth && app.isSidebarOpen {
        app.ToggleSidebar();
      }
    }

    /** The scroll-lock effect, run whenever the drawer state changes. */
    method SyncBodyOverflow()
      modifies this`bodyOverflow
      ensures bodyOverflow == BodyOverflow(app.isSidebarOpen)
      ensures bodyOverflow == "hidden" <==> app.isSidebarOpen
    {
      if app.isSidebarOpen {
        bodyOverflow := "hidden";
      } else {
        bodyOverflow := "unset";
      }
    }

    /** The effect's cleanup: the lock is released. */
    method ReleaseBodyOverflow()
      modifies this`bodyOverflow
      ensures bodyOverflow == "unset"
    {
      bodyOverflow := "unset";
    }

    /** The backdrop exists only while the drawer is open; clicking it closes the drawer. */
    method HandleBackdropClick()
      requires app.isSidebarOpen
      modifies app`isSidebarOpen
      ensures !app.isSidebarOpen
      ensures app.State() == Apply(old(app.State()), SidebarToggled)
    {
      app.ToggleSidebar();
    }
  }
}
