/**
 * The planet information panel (components/info-panel.tsx): a header with
 * the planet's name and a close button, two tabs (overview and facts), and
 * a type label that calls a planet a gas giant when its radius exceeds 1.5.
 */
module Panel {
  import opened Wrappers
  import opened Scene

  datatype Tab = Overview | FactsTab

  const GasGiant := "Gas Giant"
  const Terrestrial := "Terrestrial"

  /** Radii above this are labelled "Gas Giant". */
  const GasGiantRadius: real := 1.5

  /** The "Type" cell of the overview. */
  function TypeLabel(radius: real): (r: string)
    ensures r == GasGiant <==> radius > GasGiantRadius
    ensures r == Terrestrial <==> radius <= GasGiantRadius
  {
    if radius > GasGiantRadius then GasGiant else Terrestrial
  }

  /** Against the registry: Jupiter and Saturn are gas giants; Earth, Mars and Neptune are terrestrial. */
  lemma RegistryTypes()
    ensures |Planets| == 5
    ensures TypeLabel(Planets[0].radius) == Terrestrial
    ensures TypeLabel(Planets[1].radius) == Terrestrial
    ensures TypeLabel(Planets[2].radius) == GasGiant
    ensures TypeLabel(Planets[3].radius) == GasGiant
    ensures TypeLabel(Planets[4].radius) == Terrestrial
  {
  }

  /** One `<li>` of the facts tab, keyed by its position. */
  datatype FactItem = FactItem(key: nat, text: string)

  /** What the panel draws below its tab buttons. */
  datatype TabContent =
    | OverviewContent(description: string, typeLabel: string)
    | FactsContent(items: seq<FactItem>)

  datatype PanelView = PanelView(title: string, content: TabContent)

  /** The facts list: one item per fact, in the planet's order, keyed by index. */
  function FactItems(facts: seq<string>, start: nat): (items: seq<FactItem>)
    ensures |items| == |facts|
    ensures forall k :: 0 <= k < |facts| ==> items[k] == FactItem(start + k, facts[k])
  {
    if facts == [] then [] else [FactItem(start, facts[0])] + FactItems(facts[1..], start + 1)
  }

  /**
   * The panel for `planet` with tab `tab` selected: nothing without a planet,
   * otherwise the planet's name above the selected tab's content alone.
   */
  function Render(planet: Option<Planet>, tab: Tab): (v: Option<PanelView>)
    ensures v.None? <==> planet.None?
    ensures v.Some? ==> v.value.title == planet.value.name
    ensures v.Some? ==> (v.value.content.OverviewContent? <==> tab == Overview)
    ensures v.Some? && tab == Overview ==>
      v.value.content.description == planet.value.description &&
      v.value.content.typeLabel == TypeLabel(planet.value.radius)
    ensures v.Some? && tab == FactsTab ==>
      |v.value.content.items| == |planet.value.facts| &&
      forall k :: 0 <= k < |planet.value.facts| ==>
        v.value.content.items[k].text == planet.value.facts[k] && v.value.content.items[k].key == k
  {
    match planet
    case None => None
    case Some(p) =>
      var content := match tab
        case Overview => OverviewContent(p.description, TypeLabel(p.radius))
        case FactsTab => FactsContent(FactItems(p.facts, 0));
      Some(PanelView(p.name, content))
  }

  /** The state of one mounted `InfoPanel`: its selected tab. */
  class InfoPanel {
    var activeTab: Tab

    constructor ()
      ensures activeTab == Overview
    {
      activeTab := Overview;
    }

    /** The "Overview" button. */
    method SelectOverview()
      modifies this
      ensures activeTab == Overview
    {
      activeTab := Overview;
    }

    /** The "Facts" button. */
    method SelectFacts()
      modifies this
      ensures activeTab == FactsTab
    {
      activeTab := FactsTab;
    }
  }
}
