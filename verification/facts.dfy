/**
 * The grid of expandable fact cards (components/facts-section.tsx).
 *
 * At most one card is expanded: the section keeps the id of that card, or
 * none. A card's button expands it, or collapses it when it is the expanded
 * one, and reads "Read Less" exactly on the expanded card.
 */
module Facts {
  import opened Wrappers

  datatype SpaceFact = SpaceFact(id: int, title: string)

  /** The fixed fact table, in display order. */
  const SpaceFacts: seq<SpaceFact> := [
    SpaceFact(1, "Cosmic Scale"),
    SpaceFact(2, "Moon Mysteries"),
    SpaceFact(3, "Solar Power"),
    SpaceFact(4, "Space Travel"),
    SpaceFact(5, "Earth's Rotation"),
    SpaceFact(6, "Time Dilation"),
    SpaceFact(7, "Black Hole Power"),
    SpaceFact(8, "Extreme Temperatures")
  ]

  const ReadMore := "Read More"
  const ReadLess := "Read Less"

  predicate IsFactId(id: int) {
    exists k :: 0 <= k < |SpaceFacts| && SpaceFacts[k].id == id
  }

  /** The ids of the table are 1..8, hence distinct. */
  lemma FactIds()
    ensures |SpaceFacts| == 8
    ensures forall k :: 0 <= k < |SpaceFacts| ==> SpaceFacts[k].id == k + 1
    ensures forall j, k :: 0 <= j < |SpaceFacts| && 0 <= k < |SpaceFacts| && SpaceFacts[j].id == SpaceFacts[k].id ==> j == k
    ensures forall id :: IsFactId(id) <==> 1 <= id <= 8
  {
    forall id | 1 <= id <= 8
      ensures IsFactId(id)
    {
      assert SpaceFacts[id - 1].id == id;
    }
  }

  /** The new `expandedFact` after a click on the card with id `id`. */
  function Toggle(expanded: Option<int>, id: int): (r: Option<int>)
    ensures r.None? <==> expanded == Some(id)
    ensures r.Some? ==> r.value == id
  {
    if expanded == Some(id) then None else Some(id)
  }

  /** The button caption of the card with id `id`. */
  function Label(expanded: Option<int>, id: int): (r: string)
    ensures r == ReadLess <==> expanded == Some(id)
    ensures r == ReadMore <==> expanded != Some(id)
  {
    if expanded == Some(id) then ReadLess else ReadMore
  }

  /** From the collapsed state, two clicks on the same card collapse it again. */
  lemma TwoClicksCollapse(id: int)
    ensures Toggle(None, id) == Some(id)
    ensures Toggle(Toggle(None, id), id) == None
  {
  }

  /**
   * A click flips the clicked card's caption and leaves every other card
   * reading "Read More".
   */
  lemma ClickFlipsOnlyThatCard(expanded: Option<int>, id: int, other: int)
    requires other != id
    ensures Label(Toggle(expanded, id), id) == (if Label(expanded, id) == ReadLess then ReadMore else ReadLess)
    ensures Label(Toggle(expanded, id), other) == ReadMore
  {
  }

  /** The state of the `FactsSection` component. */
  class FactsSection {
    var expandedFact: Option<int>

    /** When a card is expanded, it is one of the table's cards. */
    ghost predicate Valid()
      reads this
    {
      expandedFact.Some? ==> IsFactId(expandedFact.value)
    }

    constructor ()
      ensures Valid() && expandedFact == None
    {
      expandedFact := None;
    }

    /** The "Read More"/"Read Less" button of the card at grid position `k`. */
    method ClickCard(k: int)
      requires Valid()
      requires 0 <= k < |SpaceFacts|
      modifies this
      ensures Valid()
      ensures expandedFact == Toggle(old(expandedFact), SpaceFacts[k].id)
    {
      var id := SpaceFacts[k].id;
      expandedFact := if expandedFact == Some(id) then None else Some(id);
    }

    /**
     * The captions of the grid's buttons, card by card: "Read Less" on the
     * expanded card alone.
     */
    method Captions() returns (labels: seq<string>)
      requires Valid()
      ensures |labels| == |SpaceFacts|
      ensures forall k :: 0 <= k < |SpaceFacts| ==> labels[k] == Label(expandedFact, SpaceFacts[k].id)
      ensures forall j, k :: 0 <= j < |labels| && 0 <= k < |labels| && labels[j] == ReadLess && labels[k] == ReadLess ==> j == k
      ensures expandedFact.Some? <==> exists k :: 0 <= k < |labels| && labels[k] == ReadLess
    {
      FactIds();
      labels := [];
      var i := 0;
      while i < |SpaceFacts|
        invariant 0 <= i <= |SpaceFacts|
        invariant |labels| == i
        invariant forall k :: 0 <= k < i ==> labels[k] == Label(expandedFact, SpaceFacts[k].id)
      {
        var fact := SpaceFacts[i];
        labels := labels + [if expandedFact == Some(fact.id) then ReadLess else ReadMore];
        i := i + 1;
      }
      if expandedFact.Some? {
        assert labels[expandedFact.value - 1] == ReadLess;
      }
    }
  }
}
