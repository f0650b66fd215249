/**
 * The top-level explorer controller (components/space-explorer.tsx,
 * `SpaceExplorer`): which planet is selected, whether the onboarding hint
 * and the facts modal are shown, and whether an error has replaced the
 * whole scene by a fallback screen.
 *
 * The info panel is mounted only while a planet is selected, so its tab
 * state lives in an `InfoPanel` object that exists exactly then: it is
 * created (on the overview tab) when a planet gets selected from nothing,
 * kept when the selection moves to another planet, and dropped on close.
 */
module Explorer {
  import opened Wrappers
  import opened Scene
  import opened Panel
  import opened Navigation

  const DefaultErrorMessage := "An error occurred while loading the space explorer"

  /** `error.message || DefaultErrorMessage` */
  function FallbackMessage(message: string): (r: string)
    ensures r != ""
    ensures message != "" ==> r == message
    ensures message == "" ==> r == DefaultErrorMessage
  {
    if message == "" then DefaultErrorMessage else message
  }

  /** What the explorer draws: the fallback screen, or the scene with its overlays. */
  datatype ExplorerView =
    | Fallback(message: string)
    | SceneView(info: Option<PanelView>, controlsHint: bool, factsModal: bool, settingsPanel: bool)

  /**
   * The state of the `SpaceExplorer` component. The handlers of controls
   * that only the scene view draws require that no error is recorded: the
   * fallback screen replaces them all. Only the timer outlives the scene.
   */
  class SpaceExplorer {
    var activePlanet: Option<Planet>
    var showControls: bool
    var showFacts: bool
    var error: Option<string>
    /** The five-second hint timer has not fired yet. */
    var timerPending: bool
    /** The mounted info panel, if any. */
    var panel: InfoPanel?
    const nav: NavigationControls

    /** A selection is always a registry planet, and the info panel is mounted exactly while there is one. */
    ghost predicate Valid()
      reads this
    {
      (activePlanet.Some? ==> activePlanet.value in Planets) &&
      (activePlanet.Some? <==> panel != null)
    }

    constructor ()
      ensures Valid() && fresh(nav)
      ensures activePlanet == None && panel == null
      ensures showControls && !showFacts && error == None && timerPending
      ensures !nav.showSettings
    {
      activePlanet := None;
      showControls := true;
      showFacts := false;
      error := None;
      timerPending := true;
      panel := null;
      nav := new NavigationControls();
    }

    /** A click on the planet at position `k` of the registry. */
    method ClickPlanet(k: int)
      requires Valid()
      requires error == None
      requires 0 <= k < |Planets|
      modifies this
      ensures Valid()
      ensures activePlanet == Some(Planets[k])
      ensures old(panel) != null ==> panel == old(panel) && panel.activeTab == old(panel.activeTab)
      ensures old(panel) == null ==> panel != null && fresh(panel) && panel.activeTab == Overview
      ensures showControls == old(showControls) && showFacts == old(showFacts)
      ensures error == old(error) && timerPending == old(timerPending)
    {
      activePlanet := Some(Planets[k]);
      if panel == null {
        panel := new InfoPanel();
      }
    }

    /** The info panel's close button. */
    method ClosePanel()
      requires Valid()
      requires error == None
      modifies this
      ensures Valid()
      ensures activePlanet == None && panel == null
      ensures showControls == old(showControls) && showFacts == old(showFacts)
      ensures error == old(error) && timerPending == old(timerPending)
    {
      activePlanet := None;
      panel := null;
    }

    /** The hint's "Got it!" button. */
    method DismissControls()
      requires Valid()
      requires error == None
      modifies this
      ensures Valid()
      ensures !showControls
      ensures activePlanet == old(activePlanet) && panel == old(panel) && showFacts == old(showFacts)
      ensures error == old(error) && timerPending == old(timerPending)
    {
      showControls := false;
    }

    /** The one-shot five-second timer started on mount. */
    method TimerFires()
      requires Valid()
      requires timerPending
      modifies this
      ensures Valid()
      ensures !showControls && !timerPending
      ensures activePlanet == old(activePlanet) && panel == old(panel) && showFacts == old(showFacts)
      ensures error == old(error)
    {
      showControls := false;
      timerPending := false;
    }

    /** The navigation's compass button (`onShowControls`). */
    method ShowControls()
      requires Valid()
      requires error == None
      modifies this
      ensures Valid()
      ensures showControls
      ensures activePlanet == old(activePlanet) && panel == old(panel) && showFacts == old(showFacts)
      ensures error == old(error) && timerPending == old(timerPending)
      ensures nav.showSettings == old(nav.showSettings)
    {
      showControls := true;
    }

    /** The navigation's facts button (`onShowFacts`). */
    method ShowFacts()
      requires Valid()
      requires error == None
      modifies this
      ensures Valid()
      ensures showFacts
      ensures activePlanet == old(activePlanet) && panel == old(panel) && showControls == old(showControls)
      ensures error == old(error) && timerPending == old(timerPending)
      ensures nav.showSettings == old(nav.showSettings)
    {
      showFacts := true;
    }

    /** The facts modal's `onClose`. */
    method CloseFacts()
      requires Valid()
      requires error == None
      modifies this
      ensures Valid()
      ensures !showFacts
      ensures activePlanet == old(activePlanet) && panel == old(panel) && showControls == old(showControls)
      ensures error == old(error) && timerPending == old(timerPending)
    {
      showFacts := false;
    }

    /** The error boundary's `onError`, carrying the error's message. */
    method Fail(message: string)
      requires Valid()
      requires error == None
      modifies this
      ensures Valid()
      ensures error == Some(message)
      ensures activePlanet == old(activePlanet) && panel == old(panel)
      ensures showControls == old(showControls) && showFacts == old(showFacts) && timerPending == old(timerPending)
    {
      error := Some(message);
    }

    /**
     * The explorer as drawn: once an error is recorded, the fallback screen
     * alone; otherwise the info panel exactly while a planet is selected,
     * and each overlay exactly while its flag is set.
     */
    function View(): (v: ExplorerView)
      requires Valid()
      reads this, nav, panel
      ensures v.Fallback? <==> error.Some?
      ensures v.Fallback? ==> v.message == FallbackMessage(error.value)
      ensures v.SceneView? ==> (v.info.Some? <==> activePlanet.Some?)
      ensures v.SceneView? && activePlanet.Some? ==> v.info.value.title == activePlanet.value.name
      ensures v.SceneView? && panel != null ==> v.info == Render(activePlanet, panel.activeTab)
      ensures v.SceneView? ==> v.controlsHint == showControls && v.factsModal == showFacts
      ensures v.SceneView? ==> v.settingsPanel == nav.showSettings
    {
      if error.Some? then
        Fallback(FallbackMessage(error.value))
      else
        SceneView(if panel != null then Render(activePlanet, panel.activeTab) else None,
                  showControls, showFacts, nav.showSettings)
    }
  }

  /**
   * A session: the hint times out and comes back through the compass; the
   * settings panel stays open across the facts modal; select Mars, open its
   * facts tab, switch to Jupiter (the tab stays), close, and select Jupiter
   * again (the panel reopens on the overview tab); then an error with an
   * empty message shows the default fallback text.
   */
  method SelectionScenario()
  {
    RegistryShape();
    var e := new SpaceExplorer();
    e.TimerFires();
    assert !e.View().controlsHint;
    e.ShowControls();
    e.nav.ToggleSettings();
    e.ShowFacts();
    assert e.View() == SceneView(None, true, true, true);
    e.CloseFacts();
    e.nav.ApplySettings();
    e.ClickPlanet(1);
    assert e.activePlanet.value.name == "Mars";
    e.panel.SelectFacts();
    e.ClickPlanet(2);
    assert e.activePlanet.value.name == "Jupiter";
    assert e.panel.activeTab == FactsTab;
    e.ClosePanel();
    assert e.View().SceneView? && e.View().info == None;
    e.ClickPlanet(2);
    assert e.panel.activeTab == Overview;
    e.Fail("");
    assert e.View() == Fallback(DefaultErrorMessage);
  }
}
