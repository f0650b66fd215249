# 3D Space Explorer: a Dafny model of its UI state

The site is a single page with an image gallery, a grid of fact cards and an
interactive 3D "space explorer". Its logic is a handful of small event-driven
state machines. This project models each of them as a Dafny class. The class
has one method per UI event. Pure functions give the values those events
compute and the views they render. Lemmas prove the properties the components
rely on.

- `Gallery` (components/space-gallery.tsx) holds the six-image table. The
  lightbox index is cyclic, and JavaScript's truncating `%` is written out as
  `JsRem`. The lightbox opens on the card that was maximised, and closing it
  keeps the index. The index always addresses the table.
- `Facts` (components/facts-section.tsx) holds the eight fact cards and the
  single optional expanded id. A click toggles its card. The captions read
  "Read Less" on the expanded card alone.
- `Scene` (components/space-explorer.tsx, `SpaceScene` and `Planet`) holds the
  five-planet registry, the per-planet hover flag, and the name label. The
  label is visible while the measured camera distance is below 30. The frame
  event takes the camera position and the distance measured to it. As in the
  source, that distance is taken from the mesh's own local position, which is
  the origin for every planet.
- `Panel` (components/info-panel.tsx) holds the null guard, the two-tab
  machine, the facts list and the "Gas Giant"/"Terrestrial" label.
- `Navigation` (components/navigation-controls.tsx) holds the settings-panel
  flag.
- `Explorer` (components/space-explorer.tsx, `SpaceExplorer`) holds the
  selection, the onboarding hint, the one-shot hint timer, the facts modal and
  the error state. It also holds the mounted info panel and the navigation
  controls. `View` is the rendered result.

React state hooks become class fields. Event handlers become methods whose
`ensures` give the whole new state. In the source, the info panel is rendered
only while a planet is selected (`activePlanet && <InfoPanel …/>`). So its
selected tab resets to "overview" each time the panel reopens. The tab
survives switching from one planet to another. `Explorer.SpaceExplorer`
models this with a `panel: InfoPanel?` field that is allocated when a planet
is selected from nothing, kept on re-selection, and dropped on close.

Decimal constants (radii, rotation speeds, the 1.5 and 30 thresholds) are
Dafny `real`s. Each comparison the source makes on them has the same outcome
on the exact values as on the JavaScript doubles.

## Model

| member | source | states |
|---|---|---|
| Gallery.JsRem | components/space-gallery.tsx:58 | JavaScript `%` on a non-negative dividend lies in [0, n) and agrees with the Euclidean remainder; on a negative dividend it lies in (-n, 0] |
| Gallery.Next | components/space-gallery.tsx:57-59 | the next index stays in [0, 6), is i + 1 inside the table and wraps from 5 to 0 |
| Gallery.Prev | components/space-gallery.tsx:61-63 | the previous index stays in [0, 6), is i - 1 inside the table and wraps from 0 to 5 |
| Gallery.OffsetKeepsPrevNonNegative | components/space-gallery.tsx:62 | without the `+ spaceImages.length` the step back from 0 would yield -1; with it, it yields 5 |
| Gallery.PrevNext | components/space-gallery.tsx:57-63 | next and prev are inverse to each other on every valid index |
| Gallery.NextIter | components/space-gallery.tsx:58 | any number of next presses keeps the index in range |
| Gallery.NextIterShifts | components/space-gallery.tsx:58 | k next presses move the index k places forward modulo 6 |
| Gallery.NextCycle | components/space-gallery.tsx:58 | six next presses return to the starting image |
| Gallery.NextNoShorterCycle | components/space-gallery.tsx:58 | between one and five next presses never return to the starting image |
| Gallery.DisplaySrc | components/space-gallery.tsx:117 | the lightbox source is the image's own source when that is non-empty and "/placeholder" when it is empty |
| Gallery.TableWellFormed | components/space-gallery.tsx:8-51 | the table has six images with distinct ids and non-empty sources, so the placeholder is never used |
| Gallery.SpaceGallery.constructor | components/space-gallery.tsx:54-55 | initially index 0 with the lightbox closed |
| Gallery.SpaceGallery.NextImage | components/space-gallery.tsx:57-59 | the index becomes Next of the old index, stays in bounds, and the lightbox flag is unchanged |
| Gallery.SpaceGallery.PrevImage | components/space-gallery.tsx:61-63 | the index becomes Prev of the old index, stays in bounds, and the lightbox flag is unchanged |
| Gallery.SpaceGallery.Maximize | components/space-gallery.tsx:91-94 | maximising card i sets the index to i and opens the lightbox |
| Gallery.SpaceGallery.CloseLightbox | components/space-gallery.tsx:106 | closing clears the lightbox flag only; the index is kept |
| Gallery.SpaceGallery.Lightbox | components/space-gallery.tsx:104-126 | the lightbox is drawn iff it is open, showing the title, description, alt and source of the image at the in-bounds current index |
| Facts.FactIds | components/facts-section.tsx:8-65 | the eight cards have ids 1..8, which are distinct and are exactly the valid ids |
| Facts.Toggle | components/facts-section.tsx:91 | clicking the expanded card collapses it; clicking any other card expands that card, replacing the previous one |
| Facts.Label | components/facts-section.tsx:93 | a card reads "Read Less" iff it is the expanded card, and "Read More" otherwise |
| Facts.TwoClicksCollapse | components/facts-section.tsx:91 | from the collapsed state, two clicks on one card collapse it again |
| Facts.ClickFlipsOnlyThatCard | components/facts-section.tsx:91-93 | a click flips the clicked card's caption and leaves every other card reading "Read More" |
| Facts.FactsSection.constructor | components/facts-section.tsx:68 | initially no card is expanded |
| Facts.FactsSection.ClickCard | components/facts-section.tsx:91 | the expanded id becomes Toggle of the old one, and any expanded id stays a card of the table |
| Facts.FactsSection.Captions | components/facts-section.tsx:72-97 | one caption per card in table order; "Read Less" on at most one card, and on one card exactly when a card is expanded |
| Scene.RegistryShape | components/space-explorer.tsx:158-235 | the registry holds Earth, Mars, Jupiter, Saturn and Neptune with distinct ids, positive radii and three facts each |
| Scene.LabelVisible | components/space-explorer.tsx:301 | for a measured distance, the label is visible iff the squared distance is below 30 squared |
| Scene.LabelThreshold | components/space-explorer.tsx:301 | the label is visible at any distance just below 30, and hidden at 30 and beyond |
| Scene.PlanetView.constructor | components/space-explorer.tsx:276-277 | a planet starts unhovered at distance 0, so its label shows before the first frame |
| Scene.PlanetView.PointerOver | components/space-explorer.tsx:308 | pointer-over sets the hover flag and changes nothing else |
| Scene.PlanetView.PointerOut | components/space-explorer.tsx:309 | pointer-out clears the hover flag and changes nothing else |
| Scene.PlanetView.Frame | components/space-explorer.tsx:290-291 | a frame records the distance from the mesh's local position to the camera and leaves the hover flag alone; the label then shows iff the camera is within 30 of the world origin, whatever the planet |
| Scene.SaturnLabelHiddenWithinRange | components/space-explorer.tsx:290 | with the camera at (30, 0, 0), Saturn is within 30 of the camera, yet the measured distance is 30 and the label is hidden |
| Panel.TypeLabel | components/info-panel.tsx:54 | the type reads "Gas Giant" iff the radius exceeds 1.5, and "Terrestrial" otherwise |
| Panel.RegistryTypes | components/info-panel.tsx:54 | Jupiter and Saturn are labelled gas giants; Earth, Mars and Neptune are labelled terrestrial |
| Panel.FactItems | components/info-panel.tsx:63-67 | one list item per fact, in the planet's order, keyed by its index |
| Panel.Render | components/info-panel.tsx:9-70 | nothing is drawn for a null planet; otherwise the planet's name and exactly the selected tab's content: the description and the planet's type label ("Gas Giant" or "Terrestrial"), or the facts in order |
| Panel.InfoPanel.constructor | components/info-panel.tsx:7 | a newly mounted panel starts on the overview tab |
| Panel.InfoPanel.SelectOverview | components/info-panel.tsx:24 | the Overview button selects the overview tab, idempotently |
| Panel.InfoPanel.SelectFacts | components/info-panel.tsx:30 | the Facts button selects the facts tab, idempotently |
| Navigation.NavigationControls.constructor | components/navigation-controls.tsx:7 | the settings panel starts hidden |
| Navigation.NavigationControls.ToggleSettings | components/navigation-controls.tsx:30 | the gear button negates the settings flag, so two presses restore it |
| Navigation.NavigationControls.ApplySettings | components/navigation-controls.tsx:89 | "Apply Settings" hides the settings panel whatever its prior state |
| Explorer.FallbackMessage | components/space-explorer.tsx:72 | the fallback text is the error's own message when that is non-empty, and "An error occurred while loading the space explorer" when it is empty |
| Explorer.SpaceExplorer.constructor | components/space-explorer.tsx:53-65 | initially no planet is selected, the hint is shown, the facts modal is hidden, there is no error, the hint timer is pending and settings are hidden |
| Explorer.SpaceExplorer.ClickPlanet | components/space-explorer.tsx:255 | the selection becomes exactly the clicked registry planet (last click wins); an already-open panel keeps its tab, a newly opened one starts on overview; nothing else changes; only possible while no error replaces the scene |
| Explorer.SpaceExplorer.ClosePanel | components/space-explorer.tsx:114 | closing the panel clears the selection whatever it was and unmounts the panel; nothing else changes; only possible while no error replaces the scene |
| Explorer.SpaceExplorer.DismissControls | components/space-explorer.tsx:126 | "Got it!" hides the hint and changes nothing else; only possible while no error replaces the scene |
| Explorer.SpaceExplorer.TimerFires | components/space-explorer.tsx:58-65 | the one-shot timer hides the hint once, and cannot fire again |
| Explorer.SpaceExplorer.ShowControls | components/space-explorer.tsx:134 | the compass callback shows the hint, leaving the rest of the state and the settings flag unchanged; only possible while no error replaces the scene |
| Explorer.SpaceExplorer.ShowFacts | components/space-explorer.tsx:134 | the facts callback opens the facts modal independently of the selection and the settings flag; only possible while no error replaces the scene |
| Explorer.SpaceExplorer.CloseFacts | components/space-explorer.tsx:136 | the modal's close hides the facts modal and changes nothing else; only possible while no error replaces the scene |
| Explorer.SpaceExplorer.Fail | components/space-explorer.tsx:85 | the error boundary's callback records the error and changes nothing else; only possible while no error replaces the scene |
| Explorer.SpaceExplorer.View | components/space-explorer.tsx:68-137 | once an error is recorded only the fallback screen is drawn, with the fallback text of its message; otherwise the info panel is drawn iff a planet is selected, and the hint, facts modal and settings panel are drawn iff their flags are set |

## Left out

- Per-frame rotation of planets, nebulae and the space station, the `lookAt` call, and the square root inside `distanceTo`. These are float arithmetic on Three.js objects. `Scene.PlanetView.Frame` takes the measured distance as an input, and its precondition ties the square of that distance to the camera position.
- The asteroid belt, which is random float geometry from `Math.random` and trigonometry. The sun, nebulae and space station are constant scene decorations with no state.
- The rendering libraries (Canvas, OrbitControls, Stars, Environment, Billboard, Text, framer-motion, `next/image`), the camera, lights, materials and colours, including the `planet.color || "#4d79ff"` fallback. Every registry colour is non-empty.
- Real time: the timer is the abstract event `Explorer.SpaceExplorer.TimerFires`, and `clearTimeout` on unmount is not modelled.
- `window.location.reload()` on "Reload Page" and "Reset View", and the `alert` stubs of "Help" and "Explore in Detail". These are browser side effects with no modelled state.
- The formatted diameter, rotation-hours and position cells of the overview. They use `toLocaleString`, `Math.round` of a float division and `toFixed`.
- The error boundary's try/catch and its "Unknown error" wrapping of non-`Error` values. The model has only the error event `Explorer.SpaceExplorer.Fail` and the fallback view.
- The settings panel's checkboxes and slider. They are uncontrolled inputs whose values no code reads, so "Apply Settings" has no effect beyond hiding the panel.
- Icons, colours and fact texts of the fact cards, the hover-only `line-clamp` styling, and the card grid of the gallery. They are presentation only.
- Per-planet label distances: every planet measures the camera's distance from its mesh's local position, which is the origin. So all five labels show or hide together. The model keeps this behaviour (`Scene.PlanetView.Frame`, `Scene.SaturnLabelHiddenWithinRange`) and has no distance from each planet's own position.
- The error event `Explorer.SpaceExplorer.Fail` cannot happen in the source. `ErrorBoundary` wraps only `return children`, which cannot throw, so `onError` is never called. The model keeps the event so that the fallback view has a cause.
- The tab buttons of `Panel.InfoPanel` and the settings buttons of `Navigation.NavigationControls` do not require that no error is recorded, although the fallback screen draws neither. The explorer's own scene-only handlers do require it.
- Scene.RegistryShape: does not state that Mars's description begins with "The Red Planet". The verifier cannot look inside long string literals, so the scenario identifies Mars by name instead.
- Gallery.SpaceGallery.NextImage: not restricted to an open lightbox. Its buttons are drawn only inside the lightbox, but the handler has no such guard.
- The info panel's own null guard never fires inside the explorer, which renders the panel only for a selected planet. `Panel.Render` still models it.
- app/page.tsx (its `loadError` flag), components/space-hero.tsx (scroll parallax), components/space-facts.tsx (static list plus a close callback) and components/loader.tsx (static markup) are not part of this model.
