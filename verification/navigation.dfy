/**
 * The navigation buttons of the explorer (components/navigation-controls.tsx):
 * facts and controls buttons that call back into the explorer, and a gear
 * button that shows or hides a settings panel closed by "Apply Settings".
 */
module Navigation {
  /** The state of the `NavigationControls` component. */
  class NavigationControls {
    var showSettings: bool

    constructor ()
      ensures !showSettings
    {
      showSettings := false;
    }

    /** The gear button. */
    method ToggleSettings()
      modifies this
      ensures showSettings == !old(showSettings)
    {
      showSettings := !showSettings;
    }

    /** "Apply Settings": hides the panel whatever the inputs hold. */
    method ApplySettings()
      modifies this
      ensures !showSettings
    {
      showSettings := false;
    }
  }
}
