/**
 * The image gallery and its lightbox (components/space-gallery.tsx).
 *
 * The gallery shows a fixed table of six images. Maximising a card opens a
 * lightbox on that image; inside the lightbox the previous/next buttons move
 * a cyclic index over the table, and the close button hides the lightbox.
 */
module Gallery {
  import opened Wrappers

  datatype SpaceImage = SpaceImage(id: int, src: string, alt: string, title: string, description: string)

  /** The fixed image table, in display order. */
  const SpaceImages: seq<SpaceImage> := [
    SpaceImage(1, "https://images.unsplash.com/photo-1681673211082-6e931dcab8db", "Spiral Galaxy", "Spiral Galaxy",
      "A stunning spiral galaxy with vibrant arms stretching across thousands of light years."),
    SpaceImage(2, "https://images.unsplash.com/photo-1716881139357-ddcb2f52940c", "Nebula", "Eagle Nebula",
      "A stellar nursery where new stars are born from cosmic dust and gas."),
    SpaceImage(3, "https://images.unsplash.com/photo-1670884307458-4977f638a933 ", "Black Hole", "Black Hole Visualization",
      "An artist's impression of a supermassive black hole warping spacetime around it."),
    SpaceImage(4, "https://images.unsplash.com/photo-1645235142939-096560a17aab ", "Solar Flare", "Solar Flare",
      "A massive eruption of plasma from our Sun, reaching millions of kilometers into space."),
    SpaceImage(5, "https://images.unsplash.com/photo-1640386355103-83ebf7c6c83e ", "Exoplanet", "Exoplanet System",
      "A distant planetary system with multiple worlds orbiting an alien star."),
    SpaceImage(6, "https://images.unsplash.com/photo-1615381034338-0ce3a8d47866", "Supernova Remnant", "Supernova Remnant",
      "The beautiful aftermath of a massive star's explosive death.")
  ]

  /** `spaceImages.length`; `TableWellFormed` proves it is the table's length. */
  const ImageCount := 6

  const Placeholder := "/placeholder"

  /**
   * JavaScript's `%` on integers: the remainder truncates toward zero, so it
   * takes the sign of the dividend (unlike Dafny's Euclidean `%`).
   */
  function JsRem(a: int, n: int): (r: int)
    requires n > 0
    ensures a >= 0 ==> 0 <= r < n
    ensures a < 0 ==> -n < r <= 0
    ensures a >= 0 ==> r == a % n
  {
    if a >= 0 then a % n else -((-a) % n)
  }

  /** The index after `i`: `(prev + 1) % spaceImages.length`. */
  function Next(i: int): (r: int)
    requires 0 <= i < ImageCount
    ensures 0 <= r < ImageCount
    ensures r == if i == ImageCount - 1 then 0 else i + 1
  {
    JsRem(i + 1, ImageCount)
  }

  /** The index before `i`: `(prev - 1 + spaceImages.length) % spaceImages.length`. */
  function Prev(i: int): (r: int)
    requires 0 <= i < ImageCount
    ensures 0 <= r < ImageCount
    ensures r == if i == 0 then ImageCount - 1 else i - 1
  {
    JsRem(i - 1 + ImageCount, ImageCount)
  }

  /** Without the `+ spaceImages.length`, stepping back from the first image would give -1. */
  lemma OffsetKeepsPrevNonNegative()
    ensures JsRem(0 - 1, ImageCount) == -1
    ensures Prev(0) == ImageCount - 1
  {
  }

  lemma {:induction false} PrevNext(i: int)
    requires 0 <= i < ImageCount
    ensures Prev(Next(i)) == i
    ensures Next(Prev(i)) == i
  {
  }

  /** `Next` applied `k` times: what `k` presses of the next button do to the index. */
  function NextIter(i: int, k: nat): (r: int)
    requires 0 <= i < ImageCount
    ensures 0 <= r < ImageCount
  {
    if k == 0 then i else Next(NextIter(i, k - 1))
  }

  /** Pressing next `k` times moves the index `k` places forward, cyclically. */
  lemma {:induction false} NextIterShifts(i: int, k: nat)
    requires 0 <= i < ImageCount
    ensures NextIter(i, k) == (i + k) % ImageCount
  {
    if k > 0 {
      NextIterShifts(i, k - 1);
      var j := (i + k - 1) % ImageCount;
      assert NextIter(i, k) == Next(j);
      assert (i + k) % ImageCount == if j == ImageCount - 1 then 0 else j + 1;
    }
  }

  /** Pressing next once per image returns to the starting image. */
  lemma {:induction false} NextCycle(i: int)
    requires 0 <= i < ImageCount
    ensures NextIter(i, ImageCount) == i
  {
    NextIterShifts(i, ImageCount);
  }

  /** Fewer presses than there are images never return to the starting image. */
  lemma {:induction false} NextNoShorterCycle(i: int, k: nat)
    requires 0 <= i < ImageCount
    requires 0 < k < ImageCount
    ensures NextIter(i, k) != i
  {
    NextIterShifts(i, k);
  }

  /** `image.src || "/placeholder"` */
  function DisplaySrc(src: string): (r: string)
    ensures src != "" ==> r == src
    ensures src == "" ==> r == Placeholder
    ensures r != ""
  {
    if src == "" then Placeholder else src
  }

  /** What the open lightbox draws. */
  datatype LightboxView = LightboxView(src: string, alt: string, title: string, description: string)

  /** Every image has a source, so the lightbox never falls back to the placeholder. */
  lemma TableWellFormed()
    ensures |SpaceImages| == ImageCount
    ensures forall k :: 0 <= k < |SpaceImages| ==> SpaceImages[k].src != "" && DisplaySrc(SpaceImages[k].src) == SpaceImages[k].src
    ensures forall j, k :: 0 <= j < k < |SpaceImages| ==> SpaceImages[j].id != SpaceImages[k].id
  {
  }

  /** The state of the `SpaceGallery` component. */
  class SpaceGallery {
    var currentImageIndex: int
    var showLightbox: bool

    /** The index always addresses an entry of the image table. */
    ghost predicate Valid()
      reads this
    {
      0 <= currentImageIndex < ImageCount
    }

    constructor ()
      ensures Valid()
      ensures currentImageIndex == 0 && !showLightbox
    {
      currentImageIndex := 0;
      showLightbox := false;
    }

    /** The lightbox's right-chevron button. */
    method NextImage()
      requires Valid()
      modifies this
      ensures Valid()
      ensures currentImageIndex == Next(old(currentImageIndex))
      ensures showLightbox == old(showLightbox)
    {
      currentImageIndex := JsRem(currentImageIndex + 1, ImageCount);
    }

    /** The lightbox's left-chevron button. */
    method PrevImage()
      requires Valid()
      modifies this
      ensures Valid()
      ensures currentImageIndex == Prev(old(currentImageIndex))
      ensures showLightbox == old(showLightbox)
    {
      currentImageIndex := JsRem(currentImageIndex - 1 + ImageCount, ImageCount);
    }

    /** The maximise button on the card at position `index` of the grid. */
    method Maximize(index: int)
      requires Valid()
      requires 0 <= index < ImageCount
      modifies this
      ensures Valid()
      ensures currentImageIndex == index && showLightbox
    {
      currentImageIndex := index;
      showLightbox := true;
    }

    /** The lightbox's close button: hides the lightbox and keeps the index. */
    method CloseLightbox()
      requires Valid()
      modifies this
      ensures Valid()
      ensures !showLightbox && currentImageIndex == old(currentImageIndex)
    {
      showLightbox := false;
    }

    /** The lightbox as rendered: absent while closed, otherwise the current image. */
    method Lightbox() returns (view: Option<LightboxView>)
      requires Valid()
      ensures view.Some? <==> showLightbox
      ensures view.Some? ==> view.value.title == SpaceImages[currentImageIndex].title
      ensures view.Some? ==> view.value.description == SpaceImages[currentImageIndex].description
      ensures view.Some? ==> view.value.alt == SpaceImages[currentImageIndex].alt
      ensures view.Some? ==> view.value.src == SpaceImages[currentImageIndex].src
    {
      if !showLightbox {
        return None;
      }
      var image := SpaceImages[currentImageIndex];
      TableWellFormed();
      view := Some(LightboxView(DisplaySrc(image.src), image.alt, image.title, image.description));
    }
  }
}
