/** The annotation manager: an append-only list of annotations, a single
    "a panel is open" gate, one detail panel per annotation when a template
    selector is configured, and the camera flights and timers that connect
    selecting a marker to revealing its panel.

    What the manager asks of its environment is passed in: the result of a
    ray cast, whether the template element can be found, the projected NDC of
    each marker, and the canvas size. Each timer callback and each finished
    camera tween is a method of its own that the caller runs when it is due. */
module Manager {
  import opened Optional
  import opened Projection
  import opened Panels

  /** A position in world space. */
  datatype Vec3 = Vec3(x: real, y: real, z: real)

  /** One annotation: its marker's id and the camera position captured when
      it was created, the viewpoint its selection flies back to. */
  datatype Entry = Entry(id: nat, cameraPosition: Vec3)

  /** The nearest hit of a double click's recursive ray cast over the scene:
      nothing, a surface of the model (a hit with a face), or one of the
      marker sprites earlier annotations attached to the model, which is a
      hit without a face. */
  datatype Pick = Miss | Surface | Marker

  /** A camera tween in progress towards the viewpoint of annotation `id`. */
  datatype Flight = Flight(id: nat, start: Vec3, target: Vec3)

  /** The ids of the annotations, in creation order. */
  function Ids(entries: seq<Entry>): (ids: seq<nat>)
    ensures |ids| == |entries| && forall i :: 0 <= i < |entries| ==> ids[i] == entries[i].id
  {
    seq(|entries|, i requires 0 <= i < |entries| => entries[i].id)
  }

  /** The panel offsets of the markers projected to `ndcs`. */
  function Pixels(ndcs: seq<Vec2>, canvasWidth: nat, canvasHeight: nat, ratio: real): (pixels: seq<Pixel>)
    requires ratio > 0.0
    ensures |pixels| == |ndcs|
    ensures forall i :: 0 <= i < |ndcs| ==>
      -0.5 < pixels[i].left as real - ScreenX(ndcs[i].x, CssSize(canvasWidth, ratio)) <= 0.5 &&
      -0.5 < pixels[i].top as real - ScreenY(ndcs[i].y, CssSize(canvasHeight, ratio)) <= 0.5
  {
    seq(|ndcs|, i requires 0 <= i < |ndcs| => ToPixel(ndcs[i], canvasWidth, canvasHeight, ratio))
  }

  /** The manager's invariant, stated over the parts of its state it
      constrains; only the set of panel ids matters, not their styles. */
  ghost predicate Coherent(selector: Option<string>, templateOpen: bool, entries: seq<Entry>, nextId: nat,
                           panelIds: set<nat>, panelOrder: seq<nat>, pendingReveals: seq<nat>, pendingHides: seq<nat>)
  {
    && (forall i :: 0 <= i < |entries| ==> entries[i].id < nextId)
    && (forall i, j :: 0 <= i < j < |entries| ==> entries[i].id < entries[j].id)
    && (forall i, j :: 0 <= i < j < |panelOrder| ==> panelOrder[i] < panelOrder[j])
    && (forall i :: 0 <= i < |panelOrder| ==> panelOrder[i] in panelIds)
    && (forall id :: id in panelIds ==> id in panelOrder && id in Ids(entries))
    && (forall i :: 0 <= i < |pendingHides| ==> pendingHides[i] in panelIds)
    && (selector.None? ==> !templateOpen && panelIds == {} && pendingReveals == [])
  }

  class AnnotationManager {
    /** The template selector when it is set and non-empty (annotation.js tests
        its truthiness). */
    const selector: Option<string>
    /** Whether a tweening library was supplied; without one a selection
        does nothing beyond recording the pointer. */
    const tweening: bool
    /** Whether the element the selector matches is a `div`. Panels are looked
        up only as `div[annotation-id]`, so a clone of any other element is
        put in the document and opens the gate but is never found again. */
    const templateIsDiv: bool

    /** The annotations, in creation order. */
    var entries: seq<Entry>
    /** The next fresh marker id. */
    var nextId: nat
    /** The gate flag; read through TemplateOpen(). */
    var templateOpen: bool
    /** The inline style of each cloned panel, by annotation id. */
    var panels: map<nat, Panel>
    /** The ids of the cloned panels in document order. */
    var panelOrder: seq<nat>
    /** The last normalised pointer position. */
    var pointer: Vec2
    /** The camera's world position; the manager borrows the camera, so
        other code (the orbit controls) may move it too. */
    var camera: Vec3
    /** Camera tweens in progress, oldest first. */
    var flights: seq<Flight>
    /** Pending 100 ms reveal timers, by annotation id, oldest first. */
    var pendingReveals: seq<nat>
    /** Pending 600 ms display-none timers, by panel id, oldest first. */
    var pendingHides: seq<nat>

    /** The manager's invariant: ids are fresh and increasing, every panel
        belongs to an annotation and sits once in document order, pending
        display-none timers refer to existing panels, and without a selector
        there are no panels, no reveals and the gate stays closed. */
    ghost predicate Valid()
      reads this
    {
      Coherent(selector, templateOpen, entries, nextId, panels.Keys, panelOrder, pendingReveals, pendingHides)
    }

    /** Annotation ids never repeat. */
    lemma IdsDistinct()
      requires Valid()
      ensures Distinct(Ids(entries))
    {
    }

    /** A new manager: no annotations, the gate closed. */
    constructor (templateSelector: Option<string>, tweening: bool, templateIsDiv: bool, camera: Vec3)
      ensures Valid()
      ensures selector == if templateSelector.Some? && templateSelector.value != "" then templateSelector else None
      ensures this.tweening == tweening && this.templateIsDiv == templateIsDiv && this.camera == camera
      ensures entries == [] && panels == map[] && panelOrder == [] && !TemplateOpen()
      ensures pointer == Vec2(0.0, 0.0)
      ensures flights == [] && pendingReveals == [] && pendingHides == []
    {
      selector := if templateSelector.Some? && templateSelector.value != "" then templateSelector else None;
      this.tweening := tweening;
      this.templateIsDiv := templateIsDiv;
      this.camera := camera;
      entries, nextId := [], 0;
      templateOpen := false;
      panels, panelOrder := map[], [];
      pointer := Vec2(0.0, 0.0);
      flights, pendingReveals, pendingHides := [], [], [];
    }

    /** The gate: some panel is open. Never open without a selector. */
    function TemplateOpen(): (open: bool)
      reads this
      ensures selector.None? ==> !open
    {
      selector.Some? && templateOpen
    }

    /** A double click: normalise the pointer and, when the nearest hit is a
        surface of the model, append an annotation that captures the camera
        position. When the template can be found its clone opens the gate,
        and it is a freshly shown panel when the template is a `div`. When the nearest hit is a marker, reading the
        hit's face normal throws before anything is stored: `ok` is false and
        only the pointer has changed. */
    method Add(client: Vec2, viewWidth: real, viewHeight: real, pick: Pick, templateFound: bool)
      returns (ok: bool)
      requires Valid() && viewWidth > 0.0 && viewHeight > 0.0
      modifies this`pointer, this`entries, this`nextId, this`panels, this`panelOrder, this`templateOpen
      ensures Valid()
      ensures ok <==> !pick.Marker?
      ensures pointer == Normalize(client, viewWidth, viewHeight)
      ensures !pick.Surface? ==> entries == old(entries) && nextId == old(nextId)
      ensures pick.Surface? ==> entries == old(entries) + [Entry(old(nextId), camera)]
      ensures pick.Surface? ==> old(nextId) !in Ids(old(entries)) && old(nextId) !in old(panels)
      ensures pick.Surface? && selector.Some? && templateFound ==> TemplateOpen()
      ensures pick.Surface? && selector.Some? && templateFound && templateIsDiv ==>
        panels == old(panels)[old(nextId) := NewPanel] && panelOrder == old(panelOrder) + [old(nextId)]
      ensures !(pick.Surface? && selector.Some? && templateFound && templateIsDiv) ==>
        panels == old(panels) && panelOrder == old(panelOrder)
      ensures !(pick.Surface? && selector.Some? && templateFound) ==> templateOpen == old(templateOpen)
    {
      pointer := Normalize(client, viewWidth, viewHeight);
      ok := !pick.Marker?;
      if pick.Surface? {
        Append(selector.Some? && templateFound);
      }
    }

    /** The surface-hit half of a double click: store an annotation under the
        next id with the current camera position. With `cloned`, the template
        is cloned, which opens the gate; the clone is a shown panel under the
        same id only when the template is a `div`. */
    method Append(cloned: bool)
      requires Valid() && (cloned ==> selector.Some?)
      modifies this`entries, this`nextId, this`panels, this`panelOrder, this`templateOpen
      ensures Valid()
      ensures entries == old(entries) + [Entry(old(nextId), camera)]
      ensures old(nextId) !in Ids(old(entries)) && old(nextId) !in old(panels)
      ensures templateOpen == (old(templateOpen) || cloned)
      ensures cloned && templateIsDiv ==>
        panels == old(panels)[old(nextId) := NewPanel] && panelOrder == old(panelOrder) + [old(nextId)]
      ensures !(cloned && templateIsDiv) ==> panels == old(panels) && panelOrder == old(panelOrder)
    {
      var id := nextId;
      assert id !in Ids(entries);
      if cloned {
        if templateIsDiv {
          panels := panels[id := NewPanel];
          panelOrder := panelOrder + [id];
        }
        templateOpen := true;
      }
      entries := entries + [Entry(id, camera)];
      nextId := nextId + 1;
      assert Ids(entries) == Ids(old(entries)) + [id];
    }

    /** A click: normalise the pointer and, when it hits the marker of
        annotation `hit`, start flying the camera from where it is to that
        annotation's captured viewpoint. */
    method Select(client: Vec2, viewWidth: real, viewHeight: real, hit: Option<nat>)
      requires Valid() && viewWidth > 0.0 && viewHeight > 0.0
      requires hit.Some? ==> hit.value < |entries|
      modifies this`pointer, this`flights
      ensures Valid()
      ensures pointer == Normalize(client, viewWidth, viewHeight)
      ensures flights == if hit.Some? && tweening
        then old(flights) + [Flight(entries[hit.value].id, camera, entries[hit.value].cameraPosition)]
        else old(flights)
    {
      pointer := Normalize(client, viewWidth, viewHeight);
      if hit.Some? && tweening {
        var e := entries[hit.value];
        flights := flights + [Flight(e.id, camera, e.cameraPosition)];
      }
    }

    /** The oldest camera tween finishes (all last the same 1000 ms, so they
        finish in the order they started): the camera is at its target, and
        with a selector configured the panel's reveal is scheduled. */
    method CompleteFlight()
      requires Valid() && flights != []
      modifies this`camera, this`flights, this`pendingReveals
      ensures Valid()
      ensures camera == old(flights[0].target)
      ensures flights == old(flights[1..])
      ensures pendingReveals == old(pendingReveals) + if selector.Some? then [old(flights[0].id)] else []
    {
      var f := flights[0];
      camera := f.target;
      flights := flights[1..];
      if selector.Some? {
        pendingReveals := pendingReveals + [f.id];
      }
    }

    /** The oldest 100 ms reveal timer fires: the gate opens, then the panel
        is shown at full opacity; `ok` is false when the annotation has no
        panel, where annotation.js dereferences a missing element and throws
        after having opened the gate. */
    method RevealDue() returns (ok: bool)
      requires Valid() && pendingReveals != []
      modifies this`templateOpen, this`panels, this`pendingReveals
      ensures Valid()
      ensures TemplateOpen()
      ensures pendingReveals == old(pendingReveals[1..])
      ensures ok <==> old(pendingReveals[0]) in old(panels)
      ensures ok ==> panels == old(panels)[old(pendingReveals[0]) :=
        old(panels)[old(pendingReveals[0])].(display := Block, opacity := Some(1.0))]
      ensures !ok ==> panels == old(panels)
    {
      var id := pendingReveals[0];
      pendingReveals := pendingReveals[1..];
      templateOpen := true;
      ok := id in panels;
      if ok {
        panels := panels[id := panels[id].(display := Block, opacity := Some(1.0))];
      }
    }

    /** The start of a camera interaction: when the gate is open, fade every
        panel in document order, schedule its display-none, and close the
        gate; otherwise do nothing. */
    method HideTemplates()
      requires Valid()
      modifies this`panels, this`templateOpen, this`pendingHides
      ensures Valid()
      ensures !TemplateOpen()
      ensures old(TemplateOpen()) ==>
        panels == Faded(old(panels)) && pendingHides == old(pendingHides) + panelOrder
      ensures !old(TemplateOpen()) ==>
        panels == old(panels) && templateOpen == old(templateOpen) && pendingHides == old(pendingHides)
    {
      if TemplateOpen() {
        panels := FadeInOrder(panels, panelOrder);
        pendingHides := pendingHides + panelOrder;
        templateOpen := false;
      }
    }

    /** The oldest 600 ms display-none timer fires: its panel leaves the
        layout. The timer holds the element itself, so it never misses. */
    method HideDue()
      requires Valid() && pendingHides != []
      modifies this`panels, this`pendingHides
      ensures Valid()
      ensures panels == Undisplayed(old(panels), {old(pendingHides[0])})
      ensures pendingHides == old(pendingHides[1..])
    {
      var id := pendingHides[0];
      assert panels[id := panels[id].(display := Hidden)] == Undisplayed(panels, {id});
      panels := panels[id := panels[id].(display := Hidden)];
      pendingHides := pendingHides[1..];
      assert Valid() by {
        assert panels.Keys == old(panels).Keys;
      }
    }

    /** The per-frame refresh: place each annotation's projected marker on
        the canvas and, while the gate is open, write that offset to its
        panel, in creation order. `ok` is false when the gate is open and an
        annotation has no panel: annotation.js throws there, after writing the
        panels of the annotations before it. */
    method Update(canvasWidth: nat, canvasHeight: nat, ratio: real, ndcs: seq<Vec2>) returns (ok: bool)
      requires Valid() && ratio > 0.0 && |ndcs| == |entries|
      modifies this`panels
      ensures Valid()
      ensures ok <==> !TemplateOpen() || forall i :: 0 <= i < |entries| ==> entries[i].id in old(panels)
      ensures !TemplateOpen() ==> panels == old(panels)
      ensures TemplateOpen() ==>
        var k := FirstMissing(Ids(entries), old(panels));
        panels == Positioned(old(panels), Ids(entries)[..k], Pixels(ndcs, canvasWidth, canvasHeight, ratio)[..k])
    {
      if TemplateOpen() {
        ghost var ids := Ids(entries);
        ghost var pixels := Pixels(ndcs, canvasWidth, canvasHeight, ratio);
        var placed, reached := PlaceInOrder(panels, Ids(entries), Pixels(ndcs, canvasWidth, canvasHeight, ratio));
        ok := reached == |entries|;
        assert ok <==> forall i :: 0 <= i < |entries| ==> entries[i].id in panels by {
          FirstMissingAll(ids, panels);
          assert forall i :: 0 <= i < |entries| ==> ids[i] == entries[i].id;
        }
        assert Coherent(selector, templateOpen, entries, nextId, placed.Keys, panelOrder, pendingReveals, pendingHides) by {
          assert placed.Keys == panels.Keys;
        }
        panels := placed;
      } else {
        ok := true;
      }
    }
  }
}
