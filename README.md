# Annotation manager of the IFC viewer, in Dafny

The viewer lets a user double-click a point of a 3D building model to pin an
annotation there. An annotation is a camera-facing marker plus, when a
template selector is configured, a detail panel cloned from a DOM template.
A click on an existing marker flies the camera back to the viewpoint captured
when that annotation was made and then reveals its panel. Every frame the
markers are projected to the screen and, while a panel is open, each panel is
moved to its marker. When the user starts dragging the view, all panels fade
out and are then taken out of the layout.

This project models that manager, the `Annotation` class of
`src/components/annotation.js`:

- `projection.dfy` (module `Projection`): the two coordinate conversions over
  exact reals. Pointer pixels go to normalized device coordinates (NDC) for
  picking, and projected NDC go back to rounded CSS pixels for panel offsets.
  `Math.round` is `Floor(v + 0.5)`.
- `panels.dfy` (module `Panels`): the panel records (display, opacity, top,
  left) keyed by annotation id. It holds the specification functions of the
  per-panel loops (`Positioned`, `Faded`, `Undisplayed`, `FirstMissing`), the
  loops themselves as methods, and lemmas about them.
- `manager.dfy` (module `Manager`): the class `AnnotationManager`. It holds
  the append-only annotation list, the gate (`_templateOpen` read through
  `isTemplateOpen()`), the panels, the camera position, and the camera
  tweens and timers in flight. Every deferred step is a method of its own:
  a finished tween (`CompleteFlight`), the 100 ms reveal (`RevealDue`) and
  the 600 ms display-none (`HideDue`).
- `scenarios.dfy` (module `Scenarios`): client sessions proved from the
  contracts alone. They cover a miss, a marker hit, a missing template, a
  template that is not a `div`, a selection flying back, a reveal after a hide, two overlapping flights,
  hiding twice, and letting every display-none timer fire after a hide.
- `optional.dfy`: the `Option` datatype.

The environment is passed in as inputs:

- The ray cast: `Add` takes what the nearest hit was (`Miss`, `Surface` or
  `Marker`). `Select` takes which existing marker was hit, if any.
- Whether the template element can be found, and whether it is a `div`
  (a constant of the manager, `templateIsDiv`).
- The projected NDC of each marker.
- The viewport size, the canvas size and the device pixel ratio.

Annotation ids (three.js `uuid`s) are fresh naturals taken from a counter.

Panels are found only as `div[annotation-id]` elements (annotation.js:28-35).
`add`, however, clones whatever element the selector matches
(annotation.js:164-172). A clone of a template that is not a `div` goes into
the document and opens the gate, but no lookup ever finds it. The model
records the clone as a panel only when `templateIsDiv` holds; the gate opens
either way.

An annotation without a panel is not skipped. `getTemplate` evaluates to
`undefined` (the value of `console.warn`), and dereferencing `.style` then
throws (annotation.js:33-36, 103, 122-123). The model shows this as a
failure result:

- `Update` returns `ok == false`. It has already written the panels of the
  annotations before the first one with no panel, and it writes none after.
- `RevealDue` returns `ok == false`. It has already opened the gate.

A double click whose nearest hit is an existing marker also throws. The ray
cast in `add` is recursive over the whole scene, markers included, and a
sprite hit has no face, so reading `face.normal` fails (annotation.js:145,
160). This happens before anything is stored, so `Add` returns `ok == false`
and has changed only the pointer.

The missing-panel situation arises in two ways. The template may have been
missing at `add` time while the gate was, or later becomes, open
(`Scenarios.MissingTemplateBreaksRefresh`). Or the template is not a `div`,
so every annotation lacks a panel while its clone opens the gate
(`Scenarios.NonDivTemplateBreaksRefresh`).

## Model

| member | source | states |
|---|---|---|
| `Projection.Round` | src/components/annotation.js:118-119 | `Math.round` gives the nearest integer, with halves rounded up: `v - 1/2 < n <= v + 1/2` |
| `Projection.RoundFacts` | src/components/annotation.js:118-119 | an integer rounds to itself, and rounding is monotone |
| `Projection.NormalizeX` | src/components/annotation.js:73 | `(clientX/W)*2-1` lies in [-1, 1] exactly when clientX lies in [0, W] |
| `Projection.NormalizeY` | src/components/annotation.js:74 | `-(clientY/H)*2+1` lies in [-1, 1] exactly when clientY lies in [0, H] |
| `Projection.Normalize` | src/components/annotation.js:142-143 | the stored pointer is inside the NDC square exactly when the click is inside the viewport |
| `Projection.NormalizeCorners` | src/components/annotation.js:73-74 | (0,0) goes to (-1,1), (W,H) goes to (1,-1), and the viewport centre goes to (0,0) |
| `Projection.NormalizeMonotone` | src/components/annotation.js:73-74 | normalisation is strictly increasing in x and strictly decreasing in y |
| `Projection.ScreenX` | src/components/annotation.js:118 | the unrounded left offset lies in [0, Wc] exactly when ndc.x lies in [-1, 1] |
| `Projection.ScreenY` | src/components/annotation.js:119 | the unrounded top offset lies in [0, Hc] exactly when ndc.y lies in [-1, 1] (the axis is flipped) |
| `Projection.CssSize` | src/components/annotation.js:118-119 | `canvas.width / devicePixelRatio` is the non-negative size that, times the ratio, gives the canvas size back |
| `Projection.ToPixel` | src/components/annotation.js:118-119 | each rounded panel offset is within half a pixel of the exact screen offset of the projected point |
| `Projection.ToPixelCentre` | src/components/annotation.js:118-119 | NDC (0,0), a marker straight ahead, is placed at (round(Wc/2), round(Hc/2)) |
| `Projection.ToPixelCorners` | src/components/annotation.js:118-119 | NDC (-1,1) is placed at (0,0), and NDC (1,-1) at (round(Wc), round(Hc)) |
| `Projection.PixelNdcRoundTrip` | src/components/annotation.js:73-74 | with the surface the size of the viewport, pixel to NDC to pixel (before rounding) is the identity, and so is NDC to pixel to NDC |
| `Panels.FirstMissing` | src/components/annotation.js:121-123 | the index of the first annotation whose panel lookup fails, or the count of annotations when none fails |
| `Panels.FirstMissingAll` | src/components/annotation.js:121-123 | a pass over the annotations gets to the end exactly when every annotation has a panel |
| `Panels.Positioned` | src/components/annotation.js:122-124 | writing offsets to the panels of the listed ids keeps the set of panels |
| `Panels.PlaceInOrder` | src/components/annotation.js:112-126 | the forEach loop writes offsets in order and stops at the first missing panel; the result is `Positioned` over exactly the prefix before `FirstMissing` |
| `Panels.PositionedAt` | src/components/annotation.js:122-124 | with distinct ids, each listed panel gets its own offset and keeps display and opacity; an unlisted panel is unchanged |
| `Panels.PositionedPrefix` | src/components/annotation.js:112-126 | after a pass that stops at index k, the panel of each of the first k ids carries its annotation's offset, and every other panel is untouched |
| `Panels.FadeInOrder` | src/components/annotation.js:131-132 | fading the panels in document order yields `Faded`: every panel at opacity 0 |
| `Panels.Faded` | src/components/annotation.js:131-132 | hiding keeps the set of panels and leaves every panel at opacity 0 |
| `Panels.FadedKeepsLayout` | src/components/annotation.js:132 | fading changes no display, top or left, and fading twice equals fading once |
| `Panels.Undisplayed` | src/components/annotation.js:133-135 | a display-none step takes exactly its panels out of the layout and changes no opacity, top or left |
| `Panels.UndisplayedCompose` | src/components/annotation.js:133-135 | two display-none passes one after the other equal one pass over the union of their panels |
| `Panels.HideStepsUndisplayed` | src/components/annotation.js:133-135 | running the display-none timers one at a time, oldest first, takes exactly the panels they name out of the layout and changes nothing else |
| `Panels.HideSteps` | src/components/annotation.js:133-135 | the panels after the display-none timers for `ids` fire one at a time, oldest first; the set of panels is kept |
| `Panels.HideStepsNext` | src/components/annotation.js:133-135 | the timers for the first k+1 entries of a queue are those for the first k, then the timer of entry k |
| `Panels.HideStepsOrderFree` | src/components/annotation.js:133-135 | two runs of the timers naming the same panels, in any order and with any repeats, leave the same panels |
| `Panels.UndisplayedAfterFade` | src/components/annotation.js:129-139 | after a fade, running the display-none timers one at a time over any queue that names every panel leaves each panel faded and with display 'none' |
| `Manager.Ids` | src/components/annotation.js:121 | the annotations' ids, one per annotation, in creation order |
| `Manager.Pixels` | src/components/annotation.js:114-119 | one offset per projected marker, each within half a pixel of the exact screen position of its NDC on the canvas's CSS size |
| `Manager.AnnotationManager.constructor` | src/components/annotation.js:7-24 | the list is empty, there are no panels and the gate is closed; an empty or missing selector counts as unset; the template's tag and the tweening library are fixed for the manager's lifetime |
| `Manager.AnnotationManager.TemplateOpen` | src/components/annotation.js:38-40 | without a template selector the gate is never open |
| `Manager.AnnotationManager.IdsDistinct` | src/components/annotation.js:177-178 | no two annotations share an id |
| `Manager.AnnotationManager.Add` | src/components/annotation.js:141-180 | the pointer is always normalised. The call fails exactly when the nearest hit is a marker, which has no face (line 160). A miss or a marker hit changes no annotation, panel or gate. A surface hit appends exactly one entry, with a fresh id and the camera position at call time, and keeps the earlier entries. With a selector and a template found, the gate opens, and when the template is a `div` one shown panel is added under that id. Otherwise panels and gate are untouched |
| `Manager.AnnotationManager.Append` | src/components/annotation.js:163-178 | a stored annotation takes the next id, which no annotation or panel has yet, and the current camera position. A clone opens the gate; it is a panel (shown, last in document order) exactly when the template is a `div`, and otherwise no panel changes |
| `Manager.AnnotationManager.Select` | src/components/annotation.js:72-97 | the pointer is normalised. A hit on a marker, when tweening is available, starts one flight from the current camera to that annotation's captured position. Otherwise nothing is started |
| `Manager.AnnotationManager.CompleteFlight` | src/components/annotation.js:93-105 | a finished flight leaves the camera exactly at its target and, with a selector, schedules that annotation's reveal; flights finish in start order, so the last one started wins |
| `Manager.AnnotationManager.RevealDue` | src/components/annotation.js:100-104 | the gate opens. The annotation's panel gets display 'block' and opacity 1. It fails, with the gate already open, when that panel does not exist |
| `Manager.AnnotationManager.HideTemplates` | src/components/annotation.js:129-139 | with the gate open, every panel fades, a display-none step is scheduled per panel in document order, and the gate closes. With the gate closed, nothing changes, so a second call is a no-op |
| `Manager.AnnotationManager.HideDue` | src/components/annotation.js:133-135 | the oldest display-none step takes its panel out of the layout and cannot miss |
| `Scenarios.SettleHides` | src/components/annotation.js:133-135 | letting every pending display-none timer fire, oldest first, empties the queue and leaves the panels as `HideSteps` over that queue |
| `Manager.AnnotationManager.Update` | src/components/annotation.js:111-126 | the annotations, gate and camera are never changed, and with the gate closed no panel changes. With the gate open, the panels are `Positioned` over the annotations before the first missing panel. The call fails exactly when the gate is open and some annotation has no panel |

## Left out

- Ray casting (annotation.js:76-77, 144-145) is three.js library code. The hit is an input. For `Add` it is the kind of the nearest hit. For `Select` it is the index of the marker hit. The raycaster can only return one of the markers it was given.
- Manager.AnnotationManager.Add: a marker hit is modelled as `ok == false` with only the pointer changed. The uncaught `TypeError` itself, and what the browser does with it, are not modelled.
- Marker drawing and construction (annotation.js:42-70, 148-161) are left out. This covers the sprite texture, the halo sprite, the scale `max(size)/80`, the surface offset `max(dims)/2`, and re-parenting with `object.attach`. All of it is canvas and three.js work over floats.
- Camera projection (`getWorldPosition`, `project`, annotation.js:116-117) is library code. `Update` takes the projected NDC of each marker as an input.
- Tween interpolation and quadratic easing (annotation.js:88-97) are left out. Only a flight's start and its completion are modelled. Over reals the completed tween lands exactly on its target, which floating point only approximates.
- Real timers are not modelled. The caller runs `CompleteFlight`, `RevealDue` and `HideDue` when each is due. Within a kind they fire oldest first, since all have the same delay. The order between kinds is the caller's choice.
- DOM details are left out:
  - hiding the original template at construction (annotation.js:22-23)
  - the CSS `transition` on clones
  - styles as strings such as `'0'` and `` `${n}px` ``, modelled as numbers
  - the clone inheriting the template's inline style: a new panel has display 'block' and no opacity or offset set
  - the document order of the panels: clones are appended at the end of `document.body` (annotation.js:172), so `getAllTemplates()` returns them in creation order, which is what `panelOrder` holds (clones of a template that is not a `div` are in the document but not matched by `getAllTemplates()`, so they are not in `panelOrder`)
- Event-listener registration (annotation.js:26) and `console.log`/`console.warn` are left out.
- Projection.NormalizeX: requires a positive viewport width. Likewise NormalizeY, Normalize, `Add` and `Select` require positive sizes. For a zero size JavaScript yields infinities or NaN, which reals cannot express.
- Projection.ToPixel: requires a positive device pixel ratio, for the same reason. `CssSize` and `Update` require it too.
- Manager.AnnotationManager.Update: its contract gives the new panels through `Positioned`. The per-panel offsets follow from `Panels.PositionedPrefix` and `IdsDistinct`; they are not restated in the method's own postcondition.
- `src/components/Viewer/Viewer.component.js` is not part of this model: scene, renderer, lighting, model loading, the resize handler and the render loop are setup and I/O. If `Update` throws there, the render loop stops, because `requestAnimationFrame` comes after the call. That consequence is not modelled.
- `src/components/App/App.js` is not part of this model. It is a view toggle with no logic.
